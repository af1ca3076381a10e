/**
  * End-to-end guarantees of the console protocol.  Each one is about the state
  * after an arbitrary sequence of actions of host, guest and terminal.
  */
module SessionTheorems {
  import opened Options
  import opened Xdr
  import opened Protocol
  import opened Flow
  import opened Session
  import opened SessionInvariant
  import opened SessionOut
  import opened SessionIn
  import H = HostMachine
  import G = GuestMachine

  /**
    * Framing does not depend on fragmentation: in both directions the messages
    * dispatched are the first of the messages sent, whatever the sizes of the
    * reads and writes.  Towards the guest this holds while the guest reads, and
    * unless QUIT was queued behind a packet that was cut short.
    */
  lemma MessagesArriveInOrder(form: H.DrainForm, escape: Option<byte>, actions: seq<Action>)
    requires RunFromStart(form, escape, actions).Some?
    ensures var s := RunFromStart(form, escape, actions).value;
            && s.host.log.received <= s.guest.log.sent
            && (G.Looping(s.guest) && !s.host.log.garbled ==> s.guest.log.received <= s.host.log.outbox)
  {
    hide EncodeI32, RunFromStart;
    RunOk(form, escape, actions);
    ReceivedIsPrefix(RunFromStart(form, escape, actions).value);
  }

  lemma ReceivedIsPrefix(s: Session)
    requires Inv(s)
    ensures s.host.log.received <= s.guest.log.sent
    ensures G.Looping(s.guest) && !s.host.log.garbled ==> s.guest.log.received <= s.host.log.outbox
  {
    hide EncodeI32, Wire, Encode, H.OutboxShape, H.QueuesOk, G.SentShape, Lead, LeadPrefix, AllWait;
  }

  /**
    * No loss and no reordering of output: what the host wrote locally is a
    * prefix of what the guest read from the application, on each stream.
    */
  lemma OutputIsPrefix(s: Session)
    requires Inv(s)
    ensures s.host.log.stdoutWritten <= s.guest.log.stdoutRead
    ensures s.host.log.stderrWritten <= s.guest.log.stderrRead
  {
    hide EncodeI32, OutFlow, InFlow, InData, H.StateOk, H.OutboxOk, H.SignalsOk, H.QueuesOk, G.SentShape, PayloadOf;
    ReceivedIsPrefix(s);
    PayloadPrefix(s.host.log.received, s.guest.log.sent, STDOUT);
    PayloadPrefix(s.host.log.received, s.guest.log.sent, STDERR);
  }

  /** After "exited" the host has dispatched everything that the guest sent. */
  lemma ExitedHasAll(s: Session)
    requires Inv(s) && s.host.log.exited != []
    ensures s.host.log.received == s.guest.log.sent && G.AppDone(s.guest)
  {
    hide EncodeI32, OutFlow, InFlow, InData, H.StateOk, H.OutboxOk, H.DeliveryOk, H.QueuesOk, PayloadOf;
    ReceivedIsPrefix(s);
    var i := |s.host.log.received| - 1;
    assert s.guest.log.sent[i] == H.Last(s.host.log.received);
    assert G.SentMessage(s.guest.log.sent, i, G.AppDone(s.guest));
  }

  /**
    * Drain before close: when the host is finished, or has been closed without
    * an error after "exited", every byte that the guest read from the
    * application has been written locally, and the application is reaped and
    * both its outputs are at their end.
    */
  lemma OutputIsComplete(form: H.DrainForm, escape: Option<byte>, actions: seq<Action>)
    requires RunFromStart(form, escape, actions).Some?
    ensures var s := RunFromStart(form, escape, actions).value;
            && s.host.log.stdoutWritten <= s.guest.log.stdoutRead
            && s.host.log.stderrWritten <= s.guest.log.stderrRead
            && (s.host.state == H.Finished || (s.host.log.exited != [] && s.host.log.closed == [false]) ==>
                  && s.host.log.stdoutWritten == s.guest.log.stdoutRead
                  && s.host.log.stderrWritten == s.guest.log.stderrRead
                  && G.AppDone(s.guest))
  {
    hide EncodeI32, RunFromStart;
    RunOk(form, escape, actions);
    var s := RunFromStart(form, escape, actions).value;
    OutputIsPrefix(s);
    if s.host.state == H.Finished || (s.host.log.exited != [] && s.host.log.closed == [false]) {
      FinishedHasAll(s);
    }
  }

  lemma FinishedHasAll(s: Session)
    requires Inv(s)
    requires s.host.state == H.Finished || (s.host.log.exited != [] && s.host.log.closed == [false])
    ensures s.host.log.stdoutWritten == s.guest.log.stdoutRead
    ensures s.host.log.stderrWritten == s.guest.log.stderrRead
    ensures G.AppDone(s.guest)
  {
    hide EncodeI32, OutFlow, InFlow, InData, H.OutboxOk, H.QueuesOk, G.SentShape, PayloadOf, Encode;
    assert |s.host.log.exited| == 1;
    ExitedHasAll(s);
    assert s.host.state == H.Finished ==> s.host.out[s.host.outOffset..] == [] && s.host.err[s.host.errOffset..] == [];
  }

  /**
    * The application's input: what it was given is a prefix of what the user
    * typed; its standard input is closed only after the end of what the user
    * typed, and then it was given all of it.  The guest never reads a packet
    * while it holds input that the application has not taken.
    */
  lemma InputIsPrefix(form: H.DrainForm, escape: Option<byte>, actions: seq<Action>)
    requires RunFromStart(form, escape, actions).Some?
    ensures var s := RunFromStart(form, escape, actions).value;
            && !(s.guest.rx.Some? && s.guest.toStdin != [])
            && (!s.host.log.garbled ==>
                  && s.guest.log.stdinWritten <= s.host.log.stdinRead
                  && (s.guest.log.starts > 0 && !s.guest.appinOpen ==>
                        s.host.localEOF && s.guest.log.stdinWritten == s.host.log.stdinRead))
  {
    hide EncodeI32, RunFromStart;
    RunOk(form, escape, actions);
    InputOk(RunFromStart(form, escape, actions).value);
  }

  /**
    * And no input is lost: while host and guest run and no write to the
    * application has failed, what was typed is what the application was given,
    * what the guest holds for it, and what is on its way.
    */
  lemma InputIsComplete(form: H.DrainForm, escape: Option<byte>, actions: seq<Action>)
    requires RunFromStart(form, escape, actions).Some?
    requires var s := RunFromStart(form, escape, actions).value;
             && s.host.state == H.Running && s.guest.state == G.Running && G.Looping(s.guest)
             && !s.guest.log.stdinFailed
    ensures var s := RunFromStart(form, escape, actions).value;
            var n := |s.guest.log.received|;
            && n <= |s.host.log.outbox| && AllSendable(s.host.log.outbox)
            && s.guest.toStdinOffset <= |s.guest.toStdin|
            && ToGuest(s) == Wire(s.host.log.outbox[n..])
            && s.guest.log.stdinWritten + s.guest.toStdin[s.guest.toStdinOffset..]
               + PayloadOf(s.host.log.outbox[n..], STDIN) == s.host.log.stdinRead
            && (ToGuest(s) == [] && s.guest.toStdin == [] ==> s.guest.log.stdinWritten == s.host.log.stdinRead)
  {
    hide EncodeI32, RunFromStart, Inv, OutFlow, InData, Encode, Wire, PayloadOf;
    RunOk(form, escape, actions);
    InputAccounted(RunFromStart(form, escape, actions).value);
  }

  lemma {:induction false} PayloadSplit(ms: seq<Message>, n: nat, proc: int32)
    requires n <= |ms|
    ensures PayloadOf(ms, proc) == PayloadOf(ms[..n], proc) + PayloadOf(ms[n..], proc)
  {
    if n == |ms| {
      assert ms[..n] == ms && ms[n..] == [];
    } else {
      var front, m := ms[..|ms| - 1], ms[|ms| - 1];
      PayloadSplit(front, n, proc);
      assert front[..n] == ms[..n] && front[n..] + [m] == ms[n..] && front + [m] == ms;
      PayloadAppend(front[n..], m, proc);
      PayloadAppend(front, m, proc);
      Associative(PayloadOf(front[..n], proc), PayloadOf(front[n..], proc), m.payload);
    }
  }

  lemma InputAccounted(s: Session)
    requires Inv(s) && s.host.state == H.Running && s.guest.state == G.Running && G.Looping(s.guest)
    requires !s.guest.log.stdinFailed
    ensures var n := |s.guest.log.received|;
            && n <= |s.host.log.outbox| && AllSendable(s.host.log.outbox)
            && s.guest.toStdinOffset <= |s.guest.toStdin|
            && ToGuest(s) == Wire(s.host.log.outbox[n..])
            && s.guest.log.stdinWritten + s.guest.toStdin[s.guest.toStdinOffset..]
               + PayloadOf(s.host.log.outbox[n..], STDIN) == s.host.log.stdinRead
            && (ToGuest(s) == [] && s.guest.toStdin == [] ==> s.guest.log.stdinWritten == s.host.log.stdinRead)
  {
    hide EncodeI32, Encode, Wire, PayloadOf, OutFlow, InData, H.StateOk, H.DeliveryOk, H.SignalsOk, H.QueuesOk,
      H.OutboxShape, G.RxOk, G.TxOk, G.SentOk, G.ExitOk;
    var outbox, n := s.host.log.outbox, |s.guest.log.received|;
    assert s.guest.log.received == outbox[..n];
    PayloadSplit(outbox, n, STDIN);
    Associative(s.guest.log.stdinWritten, s.guest.toStdin[s.guest.toStdinOffset..], PayloadOf(outbox[n..], STDIN));
    if ToGuest(s) == [] {
      EmptyWire(outbox[n..]);
    }
  }

  lemma EmptyWire(ms: seq<Message>)
    requires AllSendable(ms) && Wire(ms) == []
    ensures ms == [] && PayloadOf(ms, STDIN) == []
  {
    hide Encode;
  }

  lemma InputOk(s: Session)
    requires Inv(s)
    ensures !(s.guest.rx.Some? && s.guest.toStdin != [])
    ensures !s.host.log.garbled ==>
              && s.guest.log.stdinWritten <= s.host.log.stdinRead
              && (s.guest.log.starts > 0 && !s.guest.appinOpen ==>
                    s.host.localEOF && s.guest.log.stdinWritten == s.host.log.stdinRead)
  {
    hide EncodeI32, H.HostOk, G.SentOk, G.TxOk, G.ExitOk, OutFlow, InFlow, PayloadOf, FrameRoom;
  }

  /**
    * Neither side ever blames the other, and the branch in which the host
    * builds its SYNC packet a second time is never taken.
    */
  lemma NoProtocolFaults(form: H.DrainForm, escape: Option<byte>, actions: seq<Action>)
    requires RunFromStart(form, escape, actions).Some?
    ensures var s := RunFromStart(form, escape, actions).value;
            && !s.host.log.fault.Protocol?() && !s.host.log.resent
            && (!s.host.log.garbled ==> !s.guest.log.fault.Protocol?())
  {
    hide EncodeI32, RunFromStart, OutFlow, InFlow, G.GuestOk, H.StateOk, H.OutboxOk, H.DeliveryOk, H.QueuesOk;
    RunOk(form, escape, actions);
  }

  /**
    * The handshake: the guest starts the command at most once, and when it does
    * both SYNC bytes have crossed: the guest's own, which the host has taken,
    * so that nothing of it is left in the guest's tx or in the channel, and the
    * host's, which the host has sent completely and the guest reads now.
    */
  lemma CommandStartsAfterHandshake(form: H.DrainForm, escape: Option<byte>, actions: seq<Action>, a: Action)
    requires RunFromStart(form, escape, actions).Some?
    requires Enabled(RunFromStart(form, escape, actions).value, a)
    ensures var s := RunFromStart(form, escape, actions).value;
            var n := Next(s, a);
            && n.guest.log.starts <= 1
            && (n.guest.log.starts > s.guest.log.starts ==>
                  && a.OfGuest? && a.g.Receives? && a.g.chunk == [SYNC] && s.guest.state == G.Syncing
                  && s.guest.tx.None? && s.host.state !in {H.Waiting, H.Syncing}
                  && (s.host.state != H.Inactive ==> s.toHost == []))
  {
    hide EncodeI32, RunFromStart, Next;
    RunOk(form, escape, actions);
    var s := RunFromStart(form, escape, actions).value;
    ActionKeeps(s, a);
    StartsBound(Next(s, a));
    if Next(s, a).guest.log.starts > s.guest.log.starts {
      StartIsSync(s, a);
    }
  }

  lemma StartsBound(s: Session)
    requires Inv(s)
    ensures s.guest.log.starts <= 1
  {
    hide EncodeI32, H.HostOk, OutFlow, InFlow, InData, G.TxOk, G.SentOk, G.StdinOk, G.ExitOk;
  }

  lemma StartIsSync(s: Session, a: Action)
    requires Inv(s) && Enabled(s, a) && Next(s, a).guest.log.starts > s.guest.log.starts
    ensures a.OfGuest? && a.g.Receives? && a.g.chunk == [SYNC] && s.guest.state == G.Syncing
    ensures s.guest.tx.None? && s.host.state !in {H.Waiting, H.Syncing}
    ensures s.host.state != H.Inactive ==> s.toHost == []
  {
    hide EncodeI32, Inv, G.Next, H.Next;
    GuestOnly(s, a);
    hide Next;
    if !a.g.Receives? {
      OthersNoStart(s.guest, a.g);
    } else if s.guest.state == G.Running {
      RunningNoStart(s.guest, a.g.chunk, a.g.runs);
    } else {
      RunningRx(s);
      GuestHandshake(s.guest, a.g.chunk, a.g.runs);
      assert a.g.chunk == [SYNC] && s.toGuest[0] == SYNC;
      SyncMeansSent(s);
      if s.host.state != H.Inactive {
        StartChannel(s);
      }
    }
  }

  lemma GuestOnly(s: Session, a: Action)
    requires Enabled(s, a)
    ensures if a.OfGuest? then Next(s, a).guest == G.Next(s.guest, a.g) else Next(s, a).guest == s.guest
  {
    hide H.Next, G.Next;
  }

  lemma OthersNoStart(g: G.Guest, e: G.GuestEvent)
    requires G.Enabled(g, e) && !e.Receives?
    ensures G.Next(g, e).log.starts == g.log.starts
  {
    hide Encode, EncodeI32, G.Post, G.PostExit;
    match e
    case Reaps(app, status) => ExitNoStart(G.Reaped(g, app, status));
    case AppWritesOut(data) =>
      ExitNoStart(g.(appOutEOF := true));
      PostNoStart(g.(log := g.log.(stdoutRead := g.log.stdoutRead + data)), StdoutMessage(data, g.serial));
    case AppWritesErr(data) =>
      ExitNoStart(g.(appErrEOF := true));
      PostNoStart(g.(log := g.log.(stderrRead := g.log.stderrRead + data)), StderrMessage(data, g.serial));
    case _ =>
  }

  lemma PostNoStart(g: G.Guest, m: Message)
    requires Sendable(m)
    ensures G.Post(g, m).log.starts == g.log.starts
  {
    hide Encode, EncodeI32;
  }

  lemma ExitNoStart(g: G.Guest)
    ensures G.PostExit(g).log.starts == g.log.starts
  {
    hide Encode, EncodeI32;
  }

  lemma RunningNoStart(g: G.Guest, chunk: seq<byte>, runs: bool)
    requires G.Enabled(g, G.Receives(chunk, runs)) && g.state == G.Running
    ensures G.Next(g, G.Receives(chunk, runs)).log.starts == g.log.starts
  {
    hide EncodeI32, DecodeLength, DecodeFrame;
  }

  lemma StartChannel(s: Session)
    requires Inv(s) && s.guest.state == G.Syncing && s.host.state !in {H.Waiting, H.Inactive}
    ensures s.toHost == []
  {
    hide EncodeI32, H.HostOk, InFlow, InData, G.RxOk, G.SentOk, G.StdinOk, G.ExitOk;
    assert |ToHost(s)| == 0;
  }

  /**
    * The guest's messages: consecutive serials from 0, output messages and then
    * at most one EXIT, which is last and is built only when the application is
    * reaped and both its outputs are at their end.  "exited" is signalled at
    * most once, with the status that was reaped last before EXIT was built.
    * That is the application's own if and only if no other child was reaped in
    * between, or the last one of them left the same status.
    */
  lemma ExitIsLast(form: H.DrainForm, escape: Option<byte>, actions: seq<Action>)
    requires RunFromStart(form, escape, actions).Some?
    ensures var s := RunFromStart(form, escape, actions).value;
            var sent := s.guest.log.sent;
            && (forall i :: 0 <= i < |sent| ==> sent[i].header.serial == i % 0x1_0000_0000)
            && (forall i :: 0 <= i < |sent| ==>
                  (sent[i].header.proc == EXIT <==> G.AppDone(s.guest) && i == |sent| - 1))
            && (s.host.log.exited != [] ==>
                  && s.guest.log.appReap < s.guest.log.exitReap <= |s.guest.log.reaped|
                  && s.host.log.exited == [s.guest.log.reaped[s.guest.log.exitReap - 1]]
                  && var own, others := s.guest.log.reaped[s.guest.log.appReap], ReapedBetween(s.guest);
                     (s.host.log.exited == [own] <==> others == [] || H.Last(others) == own))
  {
    hide EncodeI32, RunFromStart;
    RunOk(form, escape, actions);
    var s := RunFromStart(form, escape, actions).value;
    SentShapeOf(s);
    if s.host.log.exited != [] {
      ExitStatus(s);
    }
  }

  /** The statuses of the children that were reaped after the application and before EXIT was built. */
  function ReapedBetween(g: G.Guest): seq<int32>
    requires g.log.appReap < g.log.exitReap <= |g.log.reaped|
  {
    g.log.reaped[g.log.appReap + 1..g.log.exitReap]
  }

  lemma SentShapeOf(s: Session)
    requires Inv(s)
    ensures forall i :: 0 <= i < |s.guest.log.sent| ==> s.guest.log.sent[i].header.serial == i % 0x1_0000_0000
    ensures forall i :: 0 <= i < |s.guest.log.sent| ==>
              (s.guest.log.sent[i].header.proc == EXIT <==> G.AppDone(s.guest) && i == |s.guest.log.sent| - 1)
  {
    hide EncodeI32, H.HostOk, OutFlow, InFlow, InData, G.RxOk, G.TxOk, G.StdinOk, G.ExitOk, PayloadOf;
    var sent := s.guest.log.sent;
    forall i | 0 <= i < |sent|
      ensures sent[i].header.serial == i % 0x1_0000_0000
      ensures sent[i].header.proc == EXIT <==> G.AppDone(s.guest) && i == |sent| - 1
    {
      assert G.SentMessage(sent, i, G.AppDone(s.guest));
    }
  }

  lemma ExitStatus(s: Session)
    requires Inv(s) && s.host.log.exited != []
    ensures s.guest.log.appReap < s.guest.log.exitReap <= |s.guest.log.reaped|
    ensures s.host.log.exited == [s.guest.log.reaped[s.guest.log.exitReap - 1]]
  {
    hide OutFlow, InFlow, InData, H.StateOk, H.OutboxOk, H.DeliveryOk, H.QueuesOk, G.RxOk, G.TxOk, G.SentOk, G.StdinOk,
      EncodeI32, DecodeI32;
    ExitedHasAll(s);
    var status := s.guest.log.reaped[s.guest.log.exitReap - 1];
    I32RoundTrip(status);
    assert EncodeI32(status)[..4] == EncodeI32(status);
  }
}
