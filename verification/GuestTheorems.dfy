/**
  * What the guest does on its own: over every run of its events, whatever the
  * host sends and however reads and writes are split.
  */
module GuestTheorems {
  import opened Options
  import opened Xdr
  import opened Protocol
  import G = GuestMachine
  import GuestInvariant

  function Run(g: G.Guest, events: seq<G.GuestEvent>): Option<G.Guest> {
    if events == [] then Some(g)
    else
      var before := Run(g, events[..|events| - 1]);
      var e := events[|events| - 1];
      if before.Some? && G.Enabled(before.value, e) then Some(G.Next(before.value, e)) else None
  }

  lemma {:induction false} RunKeeps(g: G.Guest, events: seq<G.GuestEvent>)
    requires G.GuestOk(g) && Run(g, events).Some?
    ensures G.GuestOk(Run(g, events).value)
  {
    hide G.GuestOk, G.Next, G.Enabled;
    if events != [] {
      var front := events[..|events| - 1];
      RunKeeps(g, front);
      GuestInvariant.NextOk(Run(g, front).value, events[|events| - 1]);
    }
  }

  // Which statuses are logged.

  /** What waitpid stored in the course of the events. */
  function Statuses(events: seq<G.GuestEvent>): seq<int32> {
    if events == [] then []
    else
      var front, e := Statuses(events[..|events| - 1]), events[|events| - 1];
      if e.Reaps? then front + [e.status] else front
  }

  /** The application is the child that event i reaps, and there were k before. */
  ghost predicate AppReapedAt(events: seq<G.GuestEvent>, i: nat, k: nat)
    requires i < |events|
  {
    events[i].Reaps? && events[i].app && |Statuses(events[..i])| == k
  }

  /** Event j is the one that makes the application done, and k children are reaped by then. */
  ghost predicate DoneAt(events: seq<G.GuestEvent>, j: nat, k: nat)
    requires j < |events|
  {
    && Run(G.Boot(), events[..j]).Some? && !G.AppDone(Run(G.Boot(), events[..j]).value)
    && Run(G.Boot(), events[..j + 1]).Some? && G.AppDone(Run(G.Boot(), events[..j + 1]).value)
    && |Statuses(events[..j + 1])| == k
  }

  lemma ReapStep(g: G.Guest, e: G.GuestEvent)
    requires G.Enabled(g, e)
    ensures var n := G.Next(g, e);
            && n.log.reaped == (if e.Reaps? then g.log.reaped + [e.status] else g.log.reaped)
            && n.appQuit == (g.appQuit || (e.Reaps? && e.app))
            && n.log.appReap == (if e.Reaps? && e.app then |g.log.reaped| else g.log.appReap)
            && (G.AppDone(g) ==> G.AppDone(n))
            && n.log.exitReap == if !G.AppDone(g) && G.AppDone(n) then |n.log.reaped| else g.log.exitReap
  {
    hide EncodeI32, Encode, G.Receive;
    if e.Receives? {
      ReceiveReaps(g, e.chunk, e.runs);
    }
  }

  lemma ReceiveReaps(g: G.Guest, chunk: seq<byte>, runs: bool)
    requires G.Enabled(g, G.Receives(chunk, runs))
    ensures SameReaps(g, G.Receive(g, chunk, runs))
  {
    hide G.ProcessRx;
    var data := g.rx.value.data + chunk;
    if |data| == g.rx.value.length {
      ProcessReaps(g, data, runs);
    }
  }

  lemma ProcessReaps(g: G.Guest, data: seq<byte>, runs: bool)
    requires data != [] && (g.state == G.Running ==> |data| >= LEN_MAX)
    ensures SameReaps(g, G.ProcessRx(g, data, runs))
  {
    hide DecodeFrame, DecodeLength, G.Deliver, SameReaps;
    if g.state != G.Running {
      HandshakeReaps(g, data, runs);
    } else {
      LengthReaps(g);
      if DecodeFrame(data).Some? {
        DeliverReaps(g, DecodeFrame(data).value);
      }
    }
  }

  lemma HandshakeReaps(g: G.Guest, data: seq<byte>, runs: bool)
    requires data != [] && g.state != G.Running
    ensures SameReaps(g, G.ProcessRx(g, data, runs))
  {
    hide DecodeFrame, DecodeLength, G.Deliver, EncodeI32;
  }

  lemma LengthReaps(g: G.Guest)
    ensures forall fault :: SameReaps(g, G.Fail(g, fault))
    ensures forall rx :: SameReaps(g, g.(rx := rx))
  {
  }

  lemma DeliverReaps(g: G.Guest, m: Message)
    ensures SameReaps(g, G.Deliver(g, m))
  {
    hide G.Deliver;
    GuestInvariant.DeliverFields(g, m);
  }

  ghost predicate SameReaps(g: G.Guest, n: G.Guest) {
    && n.log.reaped == g.log.reaped && n.log.appReap == g.log.appReap && n.log.exitReap == g.log.exitReap
    && n.appQuit == g.appQuit && n.appOutEOF == g.appOutEOF && n.appErrEOF == g.appErrEOF
  }

  /** The log says which statuses were stored, which is the application's, and how many there were before EXIT. */
  lemma {:induction false} ReapsLogged(events: seq<G.GuestEvent>)
    requires Run(G.Boot(), events).Some?
    ensures var g := Run(G.Boot(), events).value;
            && g.log.reaped == Statuses(events)
            && (g.appQuit ==> exists i :: 0 <= i < |events| && AppReapedAt(events, i, g.log.appReap))
            && (G.AppDone(g) ==> exists j :: 0 <= j < |events| && DoneAt(events, j, g.log.exitReap))
  {
    hide G.Next, G.Enabled, G.AppDone;
    if events == [] {
      NotDoneAtFirst();
    } else {
      var last := |events| - 1;
      var front, e := events[..last], events[last];
      ReapsLogged(front);
      var g := Run(G.Boot(), front).value;
      ReapStep(g, e);
      var n := Run(G.Boot(), events).value;
      if n.appQuit {
        if e.Reaps? && e.app {
          assert AppReapedAt(events, last, n.log.appReap);
        } else {
          var i :| 0 <= i < last && AppReapedAt(front, i, g.log.appReap);
          assert events[..i] == front[..i];
          assert AppReapedAt(events, i, n.log.appReap);
        }
      }
      if G.AppDone(n) {
        if !G.AppDone(g) {
          assert events[..last + 1] == events;
          assert DoneAt(events, last, n.log.exitReap);
        } else {
          var j :| 0 <= j < last && DoneAt(front, j, g.log.exitReap);
          assert events[..j] == front[..j] && events[..j + 1] == front[..j + 1];
          assert DoneAt(events, j, n.log.exitReap);
        }
      }
    }
  }

  lemma NotDoneAtFirst()
    ensures !G.AppDone(G.Boot())
  {
  }

  // The guest stops reading from the host.

  predicate IsData(m: Message) {
    m.header.proc == STDIN && m.payload != []
  }

  /** rx is not armed, and no write to the application is left to arm it. */
  predicate Deaf(g: G.Guest) {
    g.state == G.Running && g.rx.None? && g.toStdin == []
  }

  /** Only data is followed by another message, and only data arms rx again. */
  ghost predicate InputOk(g: G.Guest) {
    && (forall i :: 0 <= i < |g.log.received| - 1 ==> IsData(g.log.received[i]))
    && (g.log.received != [] && !IsData(G.Last(g.log.received)) ==>
          Deaf(g) && (G.Looping(g) ==> !g.appinOpen))
    && (G.Looping(g) && Deaf(g) ==> g.log.stdinFailed || !g.appinOpen)
  }

  lemma DeliverInput(g: G.Guest, m: Message)
    requires g.state == G.Running && g.rx.Some? && g.toStdin == [] && InputOk(g)
    ensures InputOk(G.Deliver(g, m))
  {
    hide EncodeI32, G.Looping;
    var received := g.log.received;
    assert forall i | 0 <= i < |received| :: IsData(received[i]) by {
      assert received != [] ==> IsData(G.Last(received)) && G.Last(received) == received[|received| - 1];
    }
    DeliveredIs(g, m);
  }

  lemma DeliveredIs(g: G.Guest, m: Message)
    ensures var d := G.Deliver(g, m);
            if m.header.proc in {STDIN, QUIT} then
              && d.log.received == g.log.received + [m] && d.rx.None? && d.state == g.state
              && (if IsData(m) then d.toStdin == m.payload else d.toStdin == g.toStdin)
              && (!IsData(m) && d.appinOpen ==> !G.Looping(d))
            else d == G.Fail(g, BadProc) && !G.Looping(d)
  {
    hide EncodeI32;
  }

  lemma FrameInput(g: G.Guest, data: seq<byte>, runs: bool)
    requires data != [] && (g.state == G.Running ==> |data| >= LEN_MAX)
    requires G.StdinOk(g) && G.RxOk(g) && g.rx.Some? && InputOk(g) && G.Looping(g)
    ensures InputOk(G.ProcessRx(g, data, runs))
  {
    hide G.Deliver, DecodeFrame, DecodeLength, PayloadOf, FrameRoom;
    if g.state == G.Running && |data| != LEN_MAX && DecodeFrame(data).Some? {
      DeliverInput(g, DecodeFrame(data).value);
    }
  }

  lemma NextInput(g: G.Guest, e: G.GuestEvent)
    requires G.GuestOk(g) && InputOk(g) && G.Enabled(g, e)
    ensures InputOk(G.Next(g, e))
  {
    hide EncodeI32, InputOk, G.Receive, G.SentOk, G.TxOk, G.ExitOk, Encode, PayloadOf, FrameRoom;
    if e.Receives? {
      ReceiveInput(g, e.chunk, e.runs);
    } else {
      OtherInput(g, e);
    }
  }

  lemma ReceiveInput(g: G.Guest, chunk: seq<byte>, runs: bool)
    requires G.GuestOk(g) && InputOk(g) && G.Enabled(g, G.Receives(chunk, runs))
    ensures InputOk(G.Receive(g, chunk, runs))
  {
    hide EncodeI32, G.ProcessRx, G.SentOk, G.TxOk, G.ExitOk, Encode, PayloadOf, FrameRoom;
    var data := g.rx.value.data + chunk;
    if |data| == g.rx.value.length {
      FrameInput(g, data, runs);
    }
  }

  /** What has to do with input from the host. */
  ghost predicate SameInput(g: G.Guest, n: G.Guest) {
    && n.rx == g.rx && n.toStdin == g.toStdin && n.appinOpen == g.appinOpen && n.state == g.state
    && n.log.received == g.log.received
    && n.log.stdinWritten == g.log.stdinWritten && n.log.stdinFailed == g.log.stdinFailed
  }

  lemma ReapSame(g: G.Guest, app: bool, status: int32)
    ensures var n := G.Reap(g, app, status);
            SameInput(g, n) && n.quit == g.quit && n.log.fault == g.log.fault
  {
    hide EncodeI32, Encode;
  }

  lemma OutputSame(g: G.Guest, data: seq<byte>)
    requires |data| <= G.APP_IO
    ensures var n := G.AppOut(g, data);
            SameInput(g, n) && n.quit == g.quit && n.log.fault == g.log.fault
    ensures var n := G.AppErr(g, data);
            SameInput(g, n) && n.quit == g.quit && n.log.fault == g.log.fault
  {
    hide EncodeI32, Encode;
  }

  lemma OtherEventSame(g: G.Guest, e: G.GuestEvent)
    requires G.Enabled(g, e) && !e.Receives? && !e.HostEnds? && !e.AppReads? && !e.AppReadFails?
    ensures var n := G.Next(g, e);
            && SameInput(g, n)
            && (n.quit <==> g.quit || e.SendFails? || e.HostHangsUp?)
            && n.log.fault == (if e.SignalPipeFails? then IoFault else g.log.fault)
  {
    hide EncodeI32, Encode, G.Reap, G.AppOut, G.AppErr;
    match e
    case Reaps(app, status) => ReapSame(g, app, status);
    case AppWritesOut(data) => OutputSame(g, data);
    case AppWritesErr(data) => OutputSame(g, data);
    case _ =>
  }

  lemma OtherInput(g: G.Guest, e: G.GuestEvent)
    requires G.GuestOk(g) && InputOk(g) && G.Enabled(g, e) && !e.Receives?
    ensures InputOk(G.Next(g, e))
  {
    hide EncodeI32, G.Reap, G.AppOut, G.AppErr, G.Send, G.Fail, G.SentOk, G.TxOk, G.ExitOk;
    hide IsData, G.Last, G.IsEnd, PayloadOf, FrameRoom;
    if !(e.HostEnds? || e.AppReads? || e.AppReadFails?) {
      OtherEventSame(g, e);
    }
  }

  lemma {:induction false} InputKept(events: seq<G.GuestEvent>)
    requires Run(G.Boot(), events).Some?
    ensures G.GuestOk(Run(G.Boot(), events).value) && InputOk(Run(G.Boot(), events).value)
  {
    hide G.GuestOk, InputOk, G.Next, G.Enabled;
    GuestInvariant.BootOk();
    RunKeeps(G.Boot(), events);
    if events == [] {
      assert InputOk(G.Boot()) by {
        NothingRead();
      }
    } else {
      var front := events[..|events| - 1];
      InputKept(front);
      NextInput(Run(G.Boot(), front).value, events[|events| - 1]);
    }
  }

  lemma NothingRead()
    ensures InputOk(G.Boot())
  {
  }

  /**
    * While the loop goes on, the guest has stopped reading from the host if and
    * only if a write to the application failed or the last message was the end
    * of input; and nothing is dispatched after the end of input or after QUIT.
    */
  lemma DeafExactly(events: seq<G.GuestEvent>)
    requires Run(G.Boot(), events).Some?
    ensures var g := Run(G.Boot(), events).value;
            && (forall i :: 0 <= i < |g.log.received| - 1 ==> IsData(g.log.received[i]))
            && (g.state == G.Running && G.Looping(g) ==>
                  (Deaf(g) <==> g.log.stdinFailed ||
                                (g.log.received != [] && G.IsEnd(G.Last(g.log.received)))))
  {
    hide G.Next, G.Enabled, G.SentOk, G.TxOk, G.ExitOk, PayloadOf, FrameRoom, Run;
    InputKept(events);
  }

  /** What ends the loop of a guest that has stopped reading. */
  predicate Ends(e: G.GuestEvent) {
    e.SendFails? || e.HostHangsUp? || e.SignalPipeFails?
  }

  /**
    * From then on it reads nothing, QUIT included, and its loop ends if and only
    * if a send fails, the host's device hangs up, or the signal pipe fails.
    */
  lemma {:induction false} DeafForever(g: G.Guest, events: seq<G.GuestEvent>)
    requires Deaf(g) && G.Looping(g) && Run(g, events).Some?
    ensures var n := Run(g, events).value;
            && Deaf(n)
            && n.log.received == g.log.received && n.log.stdinWritten == g.log.stdinWritten
            && (!G.Looping(n) <==> exists i :: 0 <= i < |events| && Ends(events[i]))
  {
    hide G.Next, G.Enabled, Deaf, G.Looping, Ends;
    if events != [] {
      var front, last := events[..|events| - 1], |events| - 1;
      DeafForever(g, front);
      DeafNext(Run(g, front).value, events[last]);
      forall i | 0 <= i < last ensures front[i] == events[i] {
      }
      if Ends(events[last]) {
        assert !G.Looping(Run(g, events).value);
      } else if i :| 0 <= i < |events| && Ends(events[i]) {
        assert Ends(front[i]);
      }
    }
  }

  lemma DeafNext(g: G.Guest, e: G.GuestEvent)
    requires Deaf(g) && G.Enabled(g, e)
    ensures var n := G.Next(g, e);
            && Deaf(n)
            && n.log.received == g.log.received && n.log.stdinWritten == g.log.stdinWritten
            && (G.Looping(n) <==> G.Looping(g) && !Ends(e))
  {
    hide EncodeI32, G.Next;
    OtherEventSame(g, e);
  }
}
