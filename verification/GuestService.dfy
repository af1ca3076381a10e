/**
  * What poll reports is served.  For each descriptor, what one turn of the loop
  * does for it; and over the loop as a whole, that the application's output is
  * read however busy the rest is, and that its standard error may wait for ever.
  */
module GuestService {
  import opened Options
  import opened Xdr
  import opened Protocol
  import opened GuestTurns
  import G = GuestMachine
  import GuestInvariant
  import GuestTheorems

  // What one event leaves alone.

  /** The application's outputs are as they were. */
  ghost predicate SameOutput(g: G.Guest, n: G.Guest) {
    && n.log.stdoutRead == g.log.stdoutRead && n.log.stderrRead == g.log.stderrRead
    && n.appOutEOF == g.appOutEOF && n.appErrEOF == g.appErrEOF
  }

  /** Its input is. */
  ghost predicate SameStdin(g: G.Guest, n: G.Guest) {
    && n.toStdin == g.toStdin && n.toStdinOffset == g.toStdinOffset && n.appinOpen == g.appinOpen
    && n.log.stdinWritten == g.log.stdinWritten && n.log.stdinFailed == g.log.stdinFailed
  }

  /** The host's side of the loop is. */
  ghost predicate SameHost(g: G.Guest, n: G.Guest) {
    n.state == g.state && n.rx == g.rx && n.quit == g.quit && n.log.fault == g.log.fault
  }

  lemma PostFrame(g: G.Guest, m: Message)
    requires Sendable(m)
    ensures SameOutput(g, G.Post(g, m)) && SameStdin(g, G.Post(g, m)) && SameHost(g, G.Post(g, m))
    ensures G.Post(g, m).tx.Some?
  {
    hide Encode, EncodeI32;
  }

  lemma ExitFrame(g: G.Guest)
    ensures SameOutput(g, G.PostExit(g)) && SameStdin(g, G.PostExit(g)) && SameHost(g, G.PostExit(g))
  {
    hide G.Post, EncodeI32;
    PostFrame(g.(log := g.log.(exitReap := |g.log.reaped|)), ExitMessage(g.exitstatus, g.serial));
  }

  lemma ReapFrame(g: G.Guest, app: bool, status: int32)
    ensures var n := G.Reap(g, app, status);
            && SameOutput(g, n) && SameStdin(g, n) && SameHost(g, n)
            && (!app || !g.appOutEOF || !g.appErrEOF ==> n.tx == g.tx)
  {
    hide G.PostExit;
    ExitFrame(G.Reaped(g, app, status));
  }

  lemma AppOutFrame(g: G.Guest, data: seq<byte>)
    requires |data| <= G.APP_IO
    ensures var n := G.AppOut(g, data);
            && SameStdin(g, n) && SameHost(g, n)
            && n.log.stdoutRead == g.log.stdoutRead + data && n.log.stderrRead == g.log.stderrRead
            && n.appOutEOF == (g.appOutEOF || data == []) && n.appErrEOF == g.appErrEOF
            && (data != [] ==> n.tx.Some?) && (data == [] && !g.appErrEOF ==> n.tx == g.tx)
  {
    hide G.PostExit, G.Post;
    assert g.log.stdoutRead + [] == g.log.stdoutRead;
    ExitFrame(g.(appOutEOF := true));
    PostFrame(g.(log := g.log.(stdoutRead := g.log.stdoutRead + data)), StdoutMessage(data, g.serial));
  }

  lemma AppErrFrame(g: G.Guest, data: seq<byte>)
    requires |data| <= G.APP_IO
    ensures var n := G.AppErr(g, data);
            && SameStdin(g, n) && SameHost(g, n)
            && n.log.stderrRead == g.log.stderrRead + data && n.log.stdoutRead == g.log.stdoutRead
            && n.appErrEOF == (g.appErrEOF || data == []) && n.appOutEOF == g.appOutEOF
  {
    hide G.PostExit, G.Post;
    assert g.log.stderrRead + [] == g.log.stderrRead;
    ExitFrame(g.(appErrEOF := true));
    PostFrame(g.(log := g.log.(stderrRead := g.log.stderrRead + data)), StderrMessage(data, g.serial));
  }

  /** What input from the host leaves alone. */
  ghost predicate Input(g: G.Guest, n: G.Guest) {
    && SameOutput(g, n) && n.log.stdinWritten == g.log.stdinWritten && n.log.stdinFailed == g.log.stdinFailed
    && (g.state != G.Waiting ==> n.tx == g.tx) && (g.state == G.Running ==> n.state == G.Running)
  }

  lemma ReceiveFrame(g: G.Guest, chunk: seq<byte>, runs: bool)
    requires G.Enabled(g, G.Receives(chunk, runs))
    ensures Input(g, G.Receive(g, chunk, runs))
  {
    hide G.ProcessRx;
    var data := g.rx.value.data + chunk;
    if |data| == g.rx.value.length {
      if g.state == G.Running {
        RunningFrame(g, data, runs);
      } else {
        HandshakeFrame(g, data, runs);
      }
    }
  }

  lemma HandshakeFrame(g: G.Guest, data: seq<byte>, runs: bool)
    requires data != [] && g.state != G.Running
    ensures Input(g, G.ProcessRx(g, data, runs))
  {
    hide DecodeFrame, DecodeLength, G.Deliver, EncodeI32;
  }

  lemma RunningFrame(g: G.Guest, data: seq<byte>, runs: bool)
    requires data != [] && g.state == G.Running && |data| >= LEN_MAX
    ensures Input(g, G.ProcessRx(g, data, runs))
  {
    hide DecodeFrame, DecodeLength, G.Deliver, EncodeI32;
    if DecodeFrame(data).Some? {
      GuestInvariant.DeliverFields(g, DecodeFrame(data).value);
    }
  }

  lemma NextFrame(g: G.Guest, e: G.GuestEvent)
    requires G.Enabled(g, e) && !e.AppWritesOut? && !e.AppWritesErr?
    ensures SameOutput(g, G.Next(g, e))
    ensures !e.AppReads? ==> G.Next(g, e).log.stdinWritten == g.log.stdinWritten
    ensures !e.AppReadFails? ==> G.Next(g, e).log.stdinFailed == g.log.stdinFailed
    ensures g.state == G.Running ==> G.Next(g, e).state == G.Running
    ensures e.Receives? || e.HostEnds? || e.AppReads? || e.AppReadFails? || e.HostHangsUp? ==>
              (g.state != G.Waiting ==> G.Next(g, e).tx == g.tx)
  {
    hide G.Receive, G.Reap, Encode, EncodeI32;
    match e
    case Receives(chunk, runs) => ReceiveFrame(g, chunk, runs);
    case Reaps(app, status) => ReapFrame(g, app, status);
    case _ =>
  }

  // Stages.

  lemma StageOk(p: Pass, e: Option<G.GuestEvent>)
    requires G.GuestOk(p.guest)
    ensures G.GuestOk(Stage(p, e).guest)
  {
    hide G.GuestOk, G.Next, G.Enabled;
    if e.Some? && G.Enabled(p.guest, e.value) {
      GuestInvariant.NextOk(p.guest, e.value);
    }
  }

  /** The stages of a turn in which the signal pipe does not fail. */
  ghost predicate Signalling(g: G.Guest, n: G.Guest) {
    && G.GuestOk(n) && SameOutput(g, n) && SameStdin(g, n) && SameHost(g, n)
    && (g.tx.Some? || !g.appOutEOF || !g.appErrEOF ==> n.tx == g.tx)
  }

  lemma NotBothEnded(g: G.Guest)
    requires G.GuestOk(g) && g.tx.Some? && !g.appQuit
    ensures !g.appOutEOF || !g.appErrEOF
  {
    hide G.RxOk, G.TxOk, G.StdinOk, G.ExitOk, G.SentShape, PayloadOf;
  }

  lemma ReapStage(p: Pass, c: Child)
    requires G.GuestOk(p.guest) && p.guest.log.fault == NoFault
    ensures Signalling(p.guest, Stage(p, Some(ReapEvent(p.guest, c))).guest)
  {
    hide G.GuestOk, G.Reap, SameOutput, SameStdin, SameHost;
    var g := p.guest;
    var e := ReapEvent(g, c);
    StageOk(p, Some(e));
    ReapFrame(g, e.app, e.status);
    FrameNone(g);
    if g.tx.Some? && !g.appQuit {
      NotBothEnded(g);
    }
  }

  lemma FrameNone(g: G.Guest)
    ensures SameOutput(g, g) && SameStdin(g, g) && SameHost(g, g)
  {
  }

  lemma SignallingTwice(g: G.Guest, m: G.Guest, n: G.Guest)
    requires Signalling(g, m) && Signalling(m, n)
    ensures Signalling(g, n)
  {
    hide G.GuestOk;
  }

  lemma {:induction false} ReapingStages(p: Pass, children: seq<Child>)
    requires G.GuestOk(p.guest) && p.guest.log.fault == NoFault
    ensures Signalling(p.guest, Reaping(p, children).guest) && Reaping(p, children).rest == p.rest
    decreases |children|
  {
    hide G.GuestOk, Stage, SameOutput, SameStdin;
    if children == [] {
      FrameNone(p.guest);
    } else {
      var q := Stage(p, Some(ReapEvent(p.guest, children[0])));
      ReapStage(p, children[0]);
      StageRest(p, Some(ReapEvent(p.guest, children[0])));
      ReapingStages(q, children[1..]);
      SignallingTwice(p.guest, q.guest, Reaping(q, children[1..]).guest);
    }
  }

  lemma StageRest(p: Pass, e: Option<G.GuestEvent>)
    ensures Stage(p, e).rest == p.rest
    ensures p.events <= Stage(p, e).events
  {
  }

  lemma SignalledStages(p: Pass, s: Signals)
    requires G.GuestOk(p.guest) && p.guest.log.fault == NoFault && !s.Broken?
    ensures Signalling(p.guest, Signalled(p, s).guest) && Signalled(p, s).rest == p.rest
  {
    hide G.GuestOk, SameOutput, SameStdin, Reaping;
    FrameNone(p.guest);
    if s.Children? {
      ReapingStages(p, s.children);
    }
  }

  // The host device.

  /** What serving the host device leaves alone. */
  ghost predicate Hosting(g: G.Guest, n: G.Guest) {
    && G.GuestOk(n) && SameOutput(g, n)
    && n.log.stdinWritten == g.log.stdinWritten && n.log.stdinFailed == g.log.stdinFailed
    && (g.state == G.Running ==> n.state == G.Running)
  }

  lemma HostStage(p: Pass, e: Option<G.GuestEvent>)
    requires G.GuestOk(p.guest)
    requires e.Some? ==>
               || e.value.Receives? || e.value.HostEnds? || e.value.Sends? || e.value.SendFails? || e.value.HostHangsUp?
    ensures Hosting(p.guest, Stage(p, e).guest)
    ensures e.Some? && (e.value.Receives? || e.value.HostEnds? || e.value.HostHangsUp?) ==>
              p.guest.state != G.Waiting ==> Stage(p, e).guest.tx == p.guest.tx
  {
    StageOk(p, e);
    hide G.GuestOk, G.Enabled, G.Next, SameOutput;
    FrameNone(p.guest);
    if e.Some? && G.Enabled(p.guest, e.value) {
      NextFrame(p.guest, e.value);
    }
  }

  lemma HostingTwice(g: G.Guest, m: G.Guest, n: G.Guest)
    requires Hosting(g, m) && Hosting(m, n)
    ensures Hosting(g, n)
  {
    hide G.GuestOk;
  }

  lemma {:induction false} HostReadFrame(p: Pass, amounts: seq<nat>, runs: bool)
    requires G.GuestOk(p.guest)
    ensures var q := HostRead(p, amounts, runs);
            && Hosting(p.guest, q.guest) && |q.rest| <= |p.rest| && p.events <= q.events
            && (p.guest.state == G.Running || (p.guest.state == G.Syncing) ==> q.guest.tx == p.guest.tx)
    decreases |p.rest|
  {
    hide G.GuestOk, Stage, SameOutput, WordDone;
    HostStage(p, None);
    NoStage(p);
    if p.guest.rx.Some? {
      var n := Got(p.guest, p.rest, First(amounts));
      HostStage(p, Some(G.HostEnds));
      StageRest(p, Some(G.HostEnds));
      if n > 0 {
        var chunk := p.rest[..n];
        var e := Some(G.Receives(chunk, runs));
        HostStage(p, e);
        StageRest(p, e);
        var q := Stage(p, e).(rest := p.rest[n..]);
        if WordDone(p.guest, chunk) && q.guest.log.fault == NoFault {
          WordState(p.guest, chunk);
          HostReadFrame(q, Others(amounts), runs);
          HostingTwice(p.guest, q.guest, HostRead(q, Others(amounts), runs).guest);
        }
      }
    }
  }

  lemma WordState(g: G.Guest, chunk: seq<byte>)
    requires WordDone(g, chunk)
    ensures g.state == G.Running
  {
  }

  lemma HostedFrame(p: Pass, polls: G.Poll, r: Report)
    requires G.GuestOk(p.guest)
    ensures var q := Hosted(p, polls, r);
            Hosting(p.guest, q.guest) && |q.rest| <= |p.rest| && p.events <= q.events
  {
    hide G.GuestOk, Stage, HostRead, Hosting;
    HostingNone(p.guest);
    HostReadFrame(p, r.amounts, r.runs);
    var a := if polls.hostIn && r.hostIn then HostRead(p, r.amounts, r.runs) else p;
    if a.guest.log.fault == NoFault {
      assert G.GuestOk(a.guest) by { HostingOk(p.guest, a.guest); }
      var e := HostOutEvent(a.guest, polls.hostOut, r.hostOut);
      HostStage(a, e);
      StageRest(a, e);
      var b := Stage(a, e);
      assert G.GuestOk(b.guest) by { HostingOk(a.guest, b.guest); }
      var f := HangupEvent(b.guest, polls.hostIn || polls.hostOut, r.hangup);
      HostStage(b, f);
      StageRest(b, f);
      HostingTwice(p.guest, a.guest, b.guest);
      HostingTwice(p.guest, b.guest, Stage(b, f).guest);
    }
  }

  lemma HostingNone(g: G.Guest)
    requires G.GuestOk(g)
    ensures Hosting(g, g)
  {
    hide G.GuestOk;
  }

  lemma HostingOk(g: G.Guest, n: G.Guest)
    requires Hosting(g, n)
    ensures G.GuestOk(n)
  {
    hide G.GuestOk;
  }

  // One turn.

  /** The turn begins in a state of the loop that goes on, and the signal pipe does not fail. */
  ghost predicate Serving(g: G.Guest, r: Report) {
    G.GuestOk(g) && G.Looping(g) && !r.signals.Broken?
  }

  ghost function TurnOf(g: G.Guest, r: Report, incoming: seq<byte>): Pass {
    Turn(Pass(g, [], incoming), r)
  }

  /** The stages of a turn: after the signals, after each of the application's descriptors, and in the end. */
  ghost function AfterSignals(g: G.Guest, r: Report, incoming: seq<byte>): Pass {
    Signalled(Pass(g, [], incoming), r.signals)
  }

  ghost function AfterAppin(g: G.Guest, r: Report, incoming: seq<byte>): Pass {
    var s := AfterSignals(g, r, incoming);
    Stage(s, AppinEvent(s.guest, G.Polls(g).appIn, r.appin))
  }

  ghost function AfterAppout(g: G.Guest, r: Report, incoming: seq<byte>): Pass {
    var a := AfterAppin(g, r, incoming);
    Stage(a, AppoutEvent(a.guest, G.Polls(g).appOut, r.appout))
  }

  ghost function AfterApperr(g: G.Guest, r: Report, incoming: seq<byte>): Pass {
    var b := AfterAppout(g, r, incoming);
    Stage(b, ApperrEvent(b.guest, G.Polls(g).appErr, r.apperr))
  }

  lemma TurnIs(g: G.Guest, r: Report, incoming: seq<byte>)
    requires Serving(g, r)
    ensures TurnOf(g, r, incoming) == Hosted(AfterApperr(g, r, incoming), G.Polls(g), r)
    ensures Signalling(g, AfterSignals(g, r, incoming).guest)
    ensures G.GuestOk(AfterAppin(g, r, incoming).guest) && G.GuestOk(AfterAppout(g, r, incoming).guest)
    ensures G.GuestOk(AfterApperr(g, r, incoming).guest)
    ensures Hosting(AfterApperr(g, r, incoming).guest, TurnOf(g, r, incoming).guest)
  {
    hide G.GuestOk, Stage, Hosted, Hosting, Signalled, SameOutput, SameStdin;
    SignalledStages(Pass(g, [], incoming), r.signals);
    var s := AfterSignals(g, r, incoming);
    StageOk(s, AppinEvent(s.guest, G.Polls(g).appIn, r.appin));
    var a := AfterAppin(g, r, incoming);
    StageOk(a, AppoutEvent(a.guest, G.Polls(g).appOut, r.appout));
    var b := AfterAppout(g, r, incoming);
    StageOk(b, ApperrEvent(b.guest, G.Polls(g).appErr, r.apperr));
    HostedFrame(AfterApperr(g, r, incoming), G.Polls(g), r);
  }

  lemma AppinFrame(p: Pass, polled: bool, w: Option<Write>)
    ensures var q := Stage(p, AppinEvent(p.guest, polled, w));
            && SameOutput(p.guest, q.guest) && q.guest.tx == p.guest.tx && q.guest.state == p.guest.state
            && q.guest.log.fault == p.guest.log.fault && q.guest.quit == p.guest.quit && q.rest == p.rest
            && (!polled || w.None? ==> q == p)
  {
  }

  lemma AppoutStage(p: Pass, polled: bool, data: Option<seq<byte>>)
    requires p.guest.state == G.Running && p.guest.log.fault == NoFault && !p.guest.quit
    requires polled ==> !p.guest.appOutEOF
    ensures var q := Stage(p, AppoutEvent(p.guest, polled, data)).guest;
            if polled && data.Some? && p.guest.tx.None? then q == G.AppOut(p.guest, Clip(data.value)) else q == p.guest
  {
    hide G.AppOut;
  }

  lemma ApperrStage(p: Pass, polled: bool, data: Option<seq<byte>>)
    requires p.guest.state == G.Running && p.guest.log.fault == NoFault && !p.guest.quit
    requires polled ==> !p.guest.appErrEOF
    ensures var q := Stage(p, ApperrEvent(p.guest, polled, data)).guest;
            if polled && data.Some? && p.guest.tx.None? then q == G.AppErr(p.guest, Clip(data.value)) else q == p.guest
  {
    hide G.AppErr;
  }

  /** Up to the application's standard output. */
  lemma StdoutStage(g: G.Guest, r: Report, incoming: seq<byte>)
    requires Serving(g, r) && g.state == G.Running
    ensures var b := AfterAppout(g, r, incoming).guest;
            var polled := g.tx.None? && !g.appOutEOF && r.appout.Some?;
            && b.state == G.Running && b.log.fault == NoFault && !b.quit
            && b.log.stdoutRead == g.log.stdoutRead + (if polled then Clip(r.appout.value) else [])
            && b.appOutEOF == (g.appOutEOF || (polled && r.appout.value == []))
            && b.log.stderrRead == g.log.stderrRead && b.appErrEOF == g.appErrEOF
            && (g.tx.None? && !g.appErrEOF ==> (b.tx.None? <==> !polled || r.appout.value == []))
  {
    TurnIs(g, r, incoming);
    hide G.GuestOk, Stage, AppinEvent, AppoutEvent, TurnOf, SameStdin, Signalled, Hosted, G.AppOut;
    var s, a := AfterSignals(g, r, incoming), AfterAppin(g, r, incoming);
    var polls := G.Polls(g);
    AppinFrame(s, polls.appIn, r.appin);
    AppoutStage(a, polls.appOut, r.appout);
    if polls.appOut && r.appout.Some? {
      AppOutFrame(a.guest, Clip(r.appout.value));
    }
    assert g.log.stdoutRead + [] == g.log.stdoutRead;
  }

  /**
    * What a turn does for the application's outputs.  They are polled while tx is
    * empty.  Standard output, if it is reported, is read, and its end noticed;
    * then standard error, unless data of standard output has just filled tx.
    */
  lemma OutputsServed(g: G.Guest, r: Report, incoming: seq<byte>)
    requires Serving(g, r) && g.state == G.Running
    ensures var t := TurnOf(g, r, incoming).guest;
            var polled := g.tx.None? && !g.appOutEOF && r.appout.Some?;
            && t.state == G.Running && G.GuestOk(t)
            && t.log.stdoutRead == g.log.stdoutRead + (if polled then Clip(r.appout.value) else [])
            && t.appOutEOF == (g.appOutEOF || (polled && r.appout.value == []))
    ensures var t := TurnOf(g, r, incoming).guest;
            var filled := !g.appOutEOF && r.appout.Some? && r.appout.value != [];
            var polled := g.tx.None? && !g.appErrEOF && r.apperr.Some? && !filled;
            && t.log.stderrRead == g.log.stderrRead + (if polled then Clip(r.apperr.value) else [])
            && t.appErrEOF == (g.appErrEOF || (polled && r.apperr.value == []))
  {
    TurnIs(g, r, incoming);
    StdoutStage(g, r, incoming);
    hide G.GuestOk, Stage, ApperrEvent, TurnOf, AfterAppout, Hosted, G.AppErr;
    var b := AfterAppout(g, r, incoming);
    var polls := G.Polls(g);
    ApperrStage(b, polls.appErr, r.apperr);
    if polls.appErr && r.apperr.Some? {
      AppErrFrame(b.guest, Clip(r.apperr.value));
    }
    assert g.log.stderrRead + [] == g.log.stderrRead;
  }

  /**
    * Input that the guest holds for the application is offered to it, once it is
    * reported writable: it takes the first bytes, or the rest is dropped.
    */
  lemma StdinServed(g: G.Guest, r: Report, incoming: seq<byte>)
    requires Serving(g, r) && g.state == G.Running && g.toStdin != [] && g.appinOpen && r.appin.Some?
    ensures var t := TurnOf(g, r, incoming).guest;
            var n := if r.appin.value.Takes? then Min(r.appin.value.most, |g.toStdin| - g.toStdinOffset) else 0;
            && g.toStdinOffset < |g.toStdin|
            && t.log.stdinWritten == g.log.stdinWritten + g.toStdin[g.toStdinOffset..g.toStdinOffset + n]
            && t.log.stdinFailed == (g.log.stdinFailed || r.appin.value.Fails?)
  {
    TurnIs(g, r, incoming);
    HeldInput(g);
    hide G.GuestOk, TurnOf, AppoutEvent, ApperrEvent, Signalled, Hosted, G.AppOut, G.AppErr, SameOutput;
    var s, a := AfterSignals(g, r, incoming), AfterAppin(g, r, incoming);
    StdinStage(s, r.appin);
    hide Stage;
    var polls := G.Polls(g);
    OutputStage(a, AppoutEvent(a.guest, polls.appOut, r.appout)) by { OutputEvents(a.guest, polls, r); }
    var b := AfterAppout(g, r, incoming);
    OutputStage(b, ApperrEvent(b.guest, polls.appErr, r.apperr)) by { OutputEvents(b.guest, polls, r); }
    assert g.log.stdinWritten + [] == g.log.stdinWritten;
  }

  lemma HeldInput(g: G.Guest)
    requires G.GuestOk(g) && g.toStdin != []
    ensures g.toStdinOffset < |g.toStdin|
  {
    hide G.RxOk, G.TxOk, G.SentOk, G.ExitOk;
  }

  lemma StdinStage(p: Pass, w: Option<Write>)
    requires p.guest.state == G.Running && p.guest.toStdin != [] && p.guest.appinOpen && w.Some?
    requires G.Looping(p.guest) && p.guest.toStdinOffset < |p.guest.toStdin|
    ensures var q := Stage(p, AppinEvent(p.guest, true, w)).guest;
            var g := p.guest;
            var n := if w.value.Takes? then Min(w.value.most, |g.toStdin| - g.toStdinOffset) else 0;
            && q.log.stdinWritten == g.log.stdinWritten + g.toStdin[g.toStdinOffset..g.toStdinOffset + n]
            && q.log.stdinFailed == (g.log.stdinFailed || w.value.Fails?)
  {
    assert p.guest.log.stdinWritten + [] == p.guest.log.stdinWritten;
  }

  ghost predicate OutputEvent(e: Option<G.GuestEvent>) {
    e.None? || e.value.AppWritesOut? || e.value.AppWritesErr?
  }

  lemma OutputEvents(g: G.Guest, polls: G.Poll, r: Report)
    ensures OutputEvent(AppoutEvent(g, polls.appOut, r.appout)) && OutputEvent(ApperrEvent(g, polls.appErr, r.apperr))
  {
  }

  lemma OutputStage(p: Pass, e: Option<G.GuestEvent>)
    requires OutputEvent(e)
    ensures var q := Stage(p, e).guest; SameStdin(p.guest, q) && SameHost(p.guest, q)
    ensures Stage(p, e).rest == p.rest
    ensures p.guest.tx.Some? ==> Stage(p, e) == p
  {
    hide G.AppOut, G.AppErr;
    if e.Some? && G.Enabled(p.guest, e.value) {
      if e.value.AppWritesOut? {
        AppOutFrame(p.guest, e.value.data);
      } else {
        AppErrFrame(p.guest, e.value.data);
      }
    }
  }

  /**
    * A packet in tx is offered to the host device, once it is reported writable:
    * the device takes the next bytes, or tx is dropped and the loop ends.  Only a
    * fault in what came from the host device comes before it.
    */
  lemma HostOutServed(g: G.Guest, r: Report, incoming: seq<byte>)
    requires Serving(g, r) && g.state != G.Waiting && g.tx.Some? && r.hostOut.Some?
    requires TurnOf(g, r, incoming).guest.log.fault == NoFault
    ensures var t := TurnOf(g, r, incoming);
            var left := |TxRest(g.tx)|;
            && left > 0
            && match r.hostOut.value
               case Fails => t.guest.tx.None? && t.guest.quit && G.SendFails in t.events
               case Takes(most) =>
                 && G.Sends(Min(most, left)) in t.events
                 && TxRest(t.guest.tx) == TxRest(g.tx)[Min(most, left)..]
  {
    TurnIs(g, r, incoming);
    UnsentIsOpen(g);
    SendingKeeps(g, r, incoming);
    hide G.GuestOk, TurnOf, AfterApperr, Hosting, AfterSignals, AfterAppin, AfterAppout, Signalling, Stage, HostRead;
    hide TxRest, TxOpen, HostOutEvent, HangupEvent, Sent;
    var p := AfterApperr(g, r, incoming);
    var polls := G.Polls(g);
    HostReadFrame(p, r.amounts, r.runs);
    var a := if polls.hostIn && r.hostIn then HostRead(p, r.amounts, r.runs) else p;
    assert a.guest.tx == g.tx;
    if a.guest.log.fault == NoFault {
      AwakeWithTx(p, a);
      SendStage(a, r.hostOut.value);
      var b := Stage(a, HostOutEvent(a.guest, true, r.hostOut));
      HangupStage(b, r.hangup);
      SentIs(a, b, Stage(b, HangupEvent(b.guest, true, r.hangup)), r.hostOut.value);
    }
  }

  lemma SentIs(a: Pass, b: Pass, t: Pass, w: Write)
    requires Sent(a, b, w) && t.guest == b.guest.(quit := t.guest.quit) && (b.guest.quit ==> t.guest.quit)
    requires b.events <= t.events
    ensures var left := |TxRest(a.guest.tx)|;
            match w
            case Fails => t.guest.tx.None? && t.guest.quit && G.SendFails in t.events
            case Takes(most) =>
              && G.Sends(Min(most, left)) in t.events
              && TxRest(t.guest.tx) == TxRest(a.guest.tx)[Min(most, left)..]
  {
    hide TxRest;
    assert b.events[|a.events|] in t.events;
  }

  lemma UnsentIsOpen(g: G.Guest)
    requires G.GuestOk(g) && g.tx.Some?
    ensures TxOpen(g.tx.value)
  {
    hide G.RxOk, G.SentOk, G.StdinOk, G.ExitOk, Encode;
  }

  lemma AwakeWithTx(p: Pass, a: Pass)
    requires G.GuestOk(p.guest) && (a == p || Hosting(p.guest, a.guest)) && a.guest.tx.Some?
    ensures a.guest.state != G.Waiting
  {
    hide G.RxOk, G.SentOk, G.StdinOk, G.ExitOk, SameOutput;
  }

  /** While tx holds a packet, the stages before the host device leave it there. */
  lemma SendingKeeps(g: G.Guest, r: Report, incoming: seq<byte>)
    requires Serving(g, r) && g.state != G.Waiting && g.tx.Some?
    ensures var p := AfterApperr(g, r, incoming);
            && p.guest.tx == g.tx && p.guest.state == g.state && p.guest.log.fault == NoFault && !p.guest.quit
            && p.rest == incoming && G.GuestOk(p.guest)
  {
    TurnIs(g, r, incoming);
    SignalledStages(Pass(g, [], incoming), r.signals);
    hide G.GuestOk, TurnOf, Stage, AppinEvent, AppoutEvent, ApperrEvent, Signalled, SameOutput, SameStdin;
    var s, a := AfterSignals(g, r, incoming), AfterAppin(g, r, incoming);
    var polls := G.Polls(g);
    AppinFrame(s, polls.appIn, r.appin);
    OutputStage(a, AppoutEvent(a.guest, polls.appOut, r.appout)) by { OutputEvents(a.guest, polls, r); }
    OutputStage(a, ApperrEvent(a.guest, polls.appErr, r.apperr)) by { OutputEvents(a.guest, polls, r); }
  }

  /** What a send leaves of tx. */
  ghost predicate Sent(p: Pass, q: Pass, w: Write) {
    var left := |TxRest(p.guest.tx)|;
    match w
    case Fails => q.guest.tx.None? && q.guest.quit && q.events == p.events + [G.SendFails]
    case Takes(most) =>
      && q.events == p.events + [G.Sends(Min(most, left))]
      && TxRest(q.guest.tx) == TxRest(p.guest.tx)[Min(most, left)..]
  }

  lemma SendStage(p: Pass, w: Write)
    requires p.guest.state != G.Waiting && p.guest.tx.Some? && TxOpen(p.guest.tx.value) && p.guest.log.fault == NoFault
    ensures Sent(p, Stage(p, HostOutEvent(p.guest, true, Some(w))), w)
  {
    var g := p.guest;
    if w.Takes? {
      var n := Min(w.most, |g.tx.value.wire| - g.tx.value.offset);
      SendRest(g, n);
      assert G.Enabled(g, G.Sends(n)) && G.Next(g, G.Sends(n)) == G.Send(g, n);
      assert HostOutEvent(g, true, Some(w)) == Some(G.Sends(n));
      hide G.Send, G.Enabled, G.Next, HostOutEvent;
    }
  }

  lemma SendRest(g: G.Guest, n: nat)
    requires g.tx.Some? && TxOpen(g.tx.value) && n <= |g.tx.value.wire| - g.tx.value.offset
    ensures |TxRest(g.tx)| == |g.tx.value.wire| - g.tx.value.offset
    ensures TxRest(G.Send(g, n).tx) == TxRest(g.tx)[n..]
  {
    var wire, offset := g.tx.value.wire, g.tx.value.offset;
    assert wire[offset..][n..] == wire[offset + n..];
  }

  lemma HangupStage(p: Pass, hangup: bool)
    ensures var q := Stage(p, HangupEvent(p.guest, true, hangup));
            && q.guest == p.guest.(quit := q.guest.quit) && (p.guest.quit ==> q.guest.quit)
            && p.events <= q.events
  {
  }

  /**
    * A host device that is polled for input and reported readable is read: the
    * next bytes are received, or its end is noticed.
    */
  lemma HostInServed(g: G.Guest, r: Report, incoming: seq<byte>)
    requires Serving(g, r) && g.rx.Some? && r.hostIn
    requires !(g.state == G.Running && g.toStdin != [] && g.appinOpen)
    ensures var t := TurnOf(g, r, incoming);
            var n := Got(g, incoming, First(r.amounts));
            && (if n > 0 then G.Receives(incoming[..n], r.runs) else G.HostEnds) in t.events
            && |t.rest| <= |incoming| - n
  {
    TurnIs(g, r, incoming);
    ReceivingKeeps(g, r, incoming);
    hide G.GuestOk, TurnOf, AfterApperr, Hosting, AfterSignals, AfterAppin, AfterAppout, Signalling, Stage, HostRead;
    hide Got;
    var p := AfterApperr(g, r, incoming);
    var polls := G.Polls(g);
    assert polls.hostIn;
    FirstRead(p, r.amounts, r.runs) by { assert p.guest.rx == g.rx; }
    GotSame(g, p.guest, incoming, First(r.amounts));
    var a := HostRead(p, r.amounts, r.runs);
    HostReadFrame(p, r.amounts, r.runs);
    AfterReads(p, polls, r);
  }

  lemma GotSame(g: G.Guest, n: G.Guest, rest: seq<byte>, most: nat)
    requires g.rx.Some? && n.rx == g.rx
    ensures Got(n, rest, most) == Got(g, rest, most)
  {
  }

  lemma ReceivingKeeps(g: G.Guest, r: Report, incoming: seq<byte>)
    requires Serving(g, r) && !(g.state == G.Running && g.toStdin != [] && g.appinOpen)
    ensures var p := AfterApperr(g, r, incoming);
            && p.guest.rx == g.rx && p.guest.state == g.state && G.Looping(p.guest)
            && p.guest.toStdin == g.toStdin && p.guest.appinOpen == g.appinOpen
            && p.rest == incoming && G.GuestOk(p.guest)
  {
    TurnIs(g, r, incoming);
    SignalledStages(Pass(g, [], incoming), r.signals);
    hide G.GuestOk, TurnOf, Stage, AppinEvent, AppoutEvent, ApperrEvent, Signalled, SameOutput;
    var s, a := AfterSignals(g, r, incoming), AfterAppin(g, r, incoming);
    var polls := G.Polls(g);
    AppinFrame(s, polls.appIn, r.appin);
    OutputStage(a, AppoutEvent(a.guest, polls.appOut, r.appout)) by { OutputEvents(a.guest, polls, r); }
    var b := AfterAppout(g, r, incoming);
    OutputStage(b, ApperrEvent(b.guest, polls.appErr, r.apperr)) by { OutputEvents(b.guest, polls, r); }
  }

  /** The first read, whatever follows it. */
  lemma FirstRead(p: Pass, amounts: seq<nat>, runs: bool)
    requires G.GuestOk(p.guest) && G.Looping(p.guest) && p.guest.rx.Some? && G.Polls(p.guest).hostIn
    ensures var n := Got(p.guest, p.rest, First(amounts));
            var e := if n > 0 then G.Receives(p.rest[..n], runs) else G.HostEnds;
            && e in HostRead(p, amounts, runs).events
            && |HostRead(p, amounts, runs).rest| <= |p.rest| - n
  {
    var n := Got(p.guest, p.rest, First(amounts));
    var e := if n > 0 then G.Receives(p.rest[..n], runs) else G.HostEnds;
    ReadEnabled(p.guest, p.rest, First(amounts), runs);
    ReadingOn(p, amounts, runs);
    hide G.GuestOk, G.Enabled, G.Next, Got, WordDone, HostRead;
    var q := Pass(G.Next(p.guest, e), p.events + [e], p.rest[n..]);
    assert q.events[|p.events|] == e;
    GuestInvariant.NextOk(p.guest, e);
    HostReadFrame(q, Others(amounts), runs);
  }

  lemma ReadEnabled(g: G.Guest, rest: seq<byte>, most: nat, runs: bool)
    requires G.GuestOk(g) && G.Looping(g) && g.rx.Some? && G.Polls(g).hostIn
    ensures var n := Got(g, rest, most);
            G.Enabled(g, if n > 0 then G.Receives(rest[..n], runs) else G.HostEnds)
  {
    hide G.TxOk, G.SentOk, G.StdinOk, G.ExitOk, DecodeLength;
  }

  lemma AfterReads(p: Pass, polls: G.Poll, r: Report)
    requires polls.hostIn && r.hostIn
    ensures var a, q := HostRead(p, r.amounts, r.runs), Hosted(p, polls, r);
            a.events <= q.events && q.rest == a.rest
  {
    hide Stage, HostRead;
    var a := HostRead(p, r.amounts, r.runs);
    var e := HostOutEvent(a.guest, polls.hostOut, r.hostOut);
    StageRest(a, e);
    var b := Stage(a, e);
    StageRest(b, HangupEvent(b.guest, polls.hostIn || polls.hostOut, r.hangup));
  }

  // The loop.

  /** The application's standard output is readable in every turn, and the host device takes some of tx. */
  ghost predicate Busy(reports: seq<Report>) {
    forall i | 0 <= i < |reports| ::
      && !reports[i].signals.Broken? && reports[i].appout.Some? && |reports[i].appout.value| <= G.APP_IO
      && reports[i].hostOut.Some? && reports[i].hostOut.value.Takes? && reports[i].hostOut.value.most > 0
  }

  /** Something was read from the application's standard output, or its end. */
  ghost predicate ReadMore(g: G.Guest, n: G.Guest) {
    |n.log.stdoutRead| > |g.log.stdoutRead| || n.appOutEOF
  }

  lemma {:induction false} ReadStays(g: G.Guest, p: Pass, reports: seq<Report>)
    requires G.GuestOk(p.guest) && p.guest.state == G.Running && Busy(reports) && ReadMore(g, p.guest)
    ensures ReadMore(g, Turns(p, reports).guest)
    decreases |reports|
  {
    hide G.GuestOk, Turn;
    if reports != [] && G.Looping(p.guest) {
      TurnPasses(p, reports[0]);
      OutputsServed(p.guest, reports[0], p.rest);
      ReadStays(g, Turn(p, reports[0]), reports[1..]);
    }
  }

  /** A turn does not look at what happened before. */
  lemma TurnPasses(p: Pass, r: Report)
    ensures var t := TurnOf(p.guest, r, p.rest);
            Turn(p, r) == Pass(t.guest, p.events + t.events, t.rest)
  {
    hide Stage, HostRead, Reaping, Stage;
    var start := Pass(p.guest, [], p.rest);
    assert p == Later(p.events, start);
    LaterTurn(p.events, start, r);
  }

  /** The same, after other events. */
  ghost function Later(events: seq<G.GuestEvent>, p: Pass): Pass {
    p.(events := events + p.events)
  }

  lemma LaterStage(before: seq<G.GuestEvent>, p: Pass, e: Option<G.GuestEvent>)
    ensures Stage(Later(before, p), e) == Later(before, Stage(p, e))
  {
    hide G.Enabled, G.Next;
    if e.Some? {
      assert before + (p.events + [e.value]) == before + p.events + [e.value];
    }
  }

  lemma {:induction false} LaterReaping(before: seq<G.GuestEvent>, p: Pass, children: seq<Child>)
    ensures Reaping(Later(before, p), children) == Later(before, Reaping(p, children))
    decreases |children|
  {
    hide Stage;
    if children != [] {
      var e := Some(ReapEvent(p.guest, children[0]));
      LaterStage(before, p, e);
      LaterReaping(before, Stage(p, e), children[1..]);
    }
  }

  lemma {:induction false} LaterRead(before: seq<G.GuestEvent>, p: Pass, amounts: seq<nat>, runs: bool)
    ensures HostRead(Later(before, p), amounts, runs) == Later(before, HostRead(p, amounts, runs))
    decreases |p.rest|
  {
    hide Stage, WordDone, Got;
    if p.guest.rx.Some? {
      var n := Got(p.guest, p.rest, First(amounts));
      LaterStage(before, p, Some(G.HostEnds));
      if n > 0 {
        var e := Some(G.Receives(p.rest[..n], runs));
        LaterStage(before, p, e);
        LaterRead(before, Stage(p, e).(rest := p.rest[n..]), Others(amounts), runs);
      }
    }
  }

  lemma LaterTurn(before: seq<G.GuestEvent>, p: Pass, r: Report)
    ensures Turn(Later(before, p), r) == Later(before, Turn(p, r))
  {
    hide Stage, HostRead, Reaping, G.Polls;
    var polls := G.Polls(p.guest);
    LaterStage(before, p, Some(G.SignalPipeFails));
    if r.signals.Children? {
      LaterReaping(before, p, r.signals.children);
    }
    var s := Signalled(p, r.signals);
    LaterStage(before, s, AppinEvent(s.guest, polls.appIn, r.appin));
    var a := Stage(s, AppinEvent(s.guest, polls.appIn, r.appin));
    LaterStage(before, a, AppoutEvent(a.guest, polls.appOut, r.appout));
    var b := Stage(a, AppoutEvent(a.guest, polls.appOut, r.appout));
    LaterStage(before, b, ApperrEvent(b.guest, polls.appErr, r.apperr));
    LaterHosted(before, Stage(b, ApperrEvent(b.guest, polls.appErr, r.apperr)), polls, r);
  }

  lemma LaterHosted(before: seq<G.GuestEvent>, p: Pass, polls: G.Poll, r: Report)
    ensures Hosted(Later(before, p), polls, r) == Later(before, Hosted(p, polls, r))
  {
    hide Stage, HostRead;
    LaterRead(before, p, r.amounts, r.runs);
    var a := if polls.hostIn && r.hostIn then HostRead(p, r.amounts, r.runs) else p;
    LaterStage(before, a, HostOutEvent(a.guest, polls.hostOut, r.hostOut));
    var b := Stage(a, HostOutEvent(a.guest, polls.hostOut, r.hostOut));
    LaterStage(before, b, HangupEvent(b.guest, polls.hostIn || polls.hostOut, r.hangup));
  }

  /**
    * Output is read however busy the loop is: if the application's standard
    * output is reported in every turn, and the host device always takes a byte,
    * then after at most as many turns as tx has bytes left, and one more, output
    * or its end has been read, unless the loop has ended.
    */
  lemma {:induction false} OutputIsRead(p: Pass, reports: seq<Report>)
    requires G.GuestOk(p.guest) && p.guest.state == G.Running && !p.guest.appOutEOF && Busy(reports)
    requires |reports| > |TxRest(p.guest.tx)| && G.Looping(Turns(p, reports).guest)
    ensures ReadMore(p.guest, Turns(p, reports).guest)
    decreases |reports|
  {
    hide G.GuestOk, Turn, TurnOf;
    var g, r := p.guest, reports[0];
    if G.Looping(g) {
      var n := Turn(p, r);
      TurnPasses(p, r);
      OutputsServed(g, r, p.rest);
      if g.tx.None? {
        ReadStays(g, n, reports[1..]);
      } else {
        if n.guest.log.fault != NoFault {
          TurnsStop(n, reports[1..]);
        } else {
          HostOutServed(g, r, p.rest);
          OutputIsRead(n, reports[1..]);
          assert |n.guest.log.stdoutRead| >= |g.log.stdoutRead|;
        }
      }
    } else {
      TurnsStop(p, reports);
    }
  }

  /** Data of standard output is reported in every turn. */
  ghost predicate Chatty(reports: seq<Report>) {
    forall i | 0 <= i < |reports| :: reports[i].appout.Some? && reports[i].appout.value != []
  }

  /**
    * The same is not true of standard error.  As long as there always is data of
    * standard output, which is served first and fills tx, no byte of standard
    * error is read, and its end is not noticed.
    */
  lemma {:induction false} ErrorsWait(p: Pass, reports: seq<Report>)
    requires G.GuestOk(p.guest) && p.guest.state == G.Running && !p.guest.appOutEOF && Chatty(reports)
    ensures var t := Turns(p, reports).guest;
            t.log.stderrRead == p.guest.log.stderrRead && t.appErrEOF == p.guest.appErrEOF
    decreases |reports|
  {
    hide G.GuestOk, Turn, TurnOf;
    if reports != [] && G.Looping(p.guest) {
      var r := reports[0];
      var n := Turn(p, r);
      if r.signals.Broken? {
        BrokenTurn(p, r);
        TurnsStop(n, reports[1..]);
      } else {
        TurnPasses(p, r);
        OutputsServed(p.guest, r, p.rest);
        assert p.guest.log.stderrRead + [] == p.guest.log.stderrRead;
        ErrorsWait(n, reports[1..]);
      }
    }
  }

  lemma BrokenTurn(p: Pass, r: Report)
    requires r.signals.Broken? && G.Looping(p.guest)
    ensures Turn(p, r).guest == G.Fail(p.guest, IoFault)
  {
  }
}
