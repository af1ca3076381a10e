/**
  * Runs from the start that show what the code, as it is written, can come to:
  * standard error that is never shown, an exit status that is not the
  * application's, a guest that does not read QUIT.
  */
module SessionRuns {
  import opened Options
  import opened Xdr
  import opened Protocol
  import opened Session
  import opened SessionInvariant
  import SessionIn
  import HostInvariant
  import HostTheorems
  import GuestTheorems
  import H = HostMachine
  import G = GuestMachine

  /** The actions lead from the start to s. */
  ghost predicate Leads(form: H.DrainForm, actions: seq<Action>, s: Session) {
    RunFromStart(form, None, actions) == Some(s)
  }

  lemma Play(form: H.DrainForm, actions: seq<Action>, s: Session, a: Action) returns (more: seq<Action>)
    requires Leads(form, actions, s) && Enabled(s, a)
    ensures Leads(form, more, Next(s, a))
  {
    hide Enabled, Next, Start;
    more := actions + [a];
    assert more[..|more| - 1] == actions;
  }

  lemma HostIsOk(form: H.DrainForm, actions: seq<Action>, s: Session)
    requires Leads(form, actions, s)
    ensures H.HostOk(s.host)
  {
    hide H.HostOk, G.GuestOk, OutFlow, InFlow, InData, Run;
    SessionIn.RunOk(form, None, actions);
  }

  // The handshake.

  function ReadyHost(form: H.DrainForm): H.Host {
    H.Host(form, None, H.Running, Some(LengthWord), None, [], 0, [], 0, false, 0, 1, H.NoLog)
  }

  function ReadyGuest(): G.Guest {
    var b := G.Boot();
    b.(state := G.Running, rx := Some(LengthWord), appinOpen := true, log := b.log.(starts := 1))
  }

  /** The command has been started and nothing has happened since. */
  function Ready(form: H.DrainForm): Session {
    Session(ReadyHost(form), ReadyGuest(), true, [], [])
  }

  function WaitingHost(form: H.DrainForm): H.Host {
    ReadyHost(form).(state := H.Waiting, rx := Some(OneByte))
  }

  lemma StartPlays(form: H.DrainForm) returns (actions: seq<Action>)
    ensures Leads(form, actions, Session(WaitingHost(form).(tx := Some(Tx([WAIT], 0)), waitTimers := 0),
                                         G.Boot(), true, [], []))
  {
    assert Leads(form, [], Start(form, None));
    actions := Play(form, [], Start(form, None), GoRaw);
  }

  lemma WaitPlays(form: H.DrainForm) returns (actions: seq<Action>)
    ensures Leads(form, actions, Session(WaitingHost(form), G.Boot().(state := G.Syncing, tx := Some(Tx([SYNC], 0))),
                                         true, [], []))
  {
    hide Leads;
    actions := StartPlays(form);
    var s := Session(WaitingHost(form).(tx := Some(Tx([WAIT], 0)), waitTimers := 0), G.Boot(), true, [], []);
    assert TxRest(Some(Tx([WAIT], 0)))[..1] == [WAIT];
    assert [] + [WAIT] == [WAIT];
    actions := Play(form, actions, s, OfHost(H.Sends(1)));
    s := Next(s, OfHost(H.Sends(1)));
    assert s == Session(WaitingHost(form), G.Boot(), true, [WAIT], []);
    actions := Play(form, actions, s, OfGuest(G.Receives([WAIT], true)));
    assert [WAIT][1..] == [];
    assert G.Next(s.guest, G.Receives([WAIT], true)) == G.Boot().(state := G.Syncing, tx := Some(Tx([SYNC], 0)));
  }

  lemma HandshakePlays(form: H.DrainForm) returns (actions: seq<Action>)
    ensures Leads(form, actions, Ready(form))
  {
    hide Leads;
    actions := WaitPlays(form);
    var s := Session(WaitingHost(form), G.Boot().(state := G.Syncing, tx := Some(Tx([SYNC], 0))), true, [], []);
    assert TxRest(Some(Tx([SYNC], 0)))[..1] == [SYNC];
    assert [] + [SYNC] == [SYNC];
    actions := Play(form, actions, s, OfGuest(G.Sends(1)));
    s := Next(s, OfGuest(G.Sends(1)));
    assert s.toHost == [SYNC];
    actions := Play(form, actions, s, OfHost(H.Receives([SYNC])));
    s := Next(s, OfHost(H.Receives([SYNC])));
    actions := Play(form, actions, s, OfHost(H.Sends(1)));
    s := Next(s, OfHost(H.Sends(1)));
    assert s.toGuest == [SYNC];
    actions := Play(form, actions, s, OfGuest(G.Receives([SYNC], true)));
  }

  // Packets.

  /** The host when it has taken and dispatched the message. */
  function Arrived(h: H.Host, m: Message): H.Host {
    HostInvariant.Rearm(H.Deliver(h.(rx := None), m))
  }

  lemma HostTakes(h: H.Host, m: Message)
    requires h.state == H.Running && h.rx == Some(LengthWord) && Sendable(m)
    ensures var w := Encode(m);
            && H.Enabled(h, H.Receives(w[..LEN_MAX]))
            && H.Next(h, H.Receives(w[..LEN_MAX])) == h.(rx := Some(Rx(w[..LEN_MAX], |w|)))
  {
    hide Encode, DecodeLength, H.Dispatch;
    FrameRoundTrip(m);
    var w := Encode(m);
    assert [] + w[..LEN_MAX] == w[..LEN_MAX];
  }

  lemma HostTakesRest(h: H.Host, m: Message)
    requires h.state == H.Running && Sendable(m) && h.rx == Some(Rx(Encode(m)[..LEN_MAX], |Encode(m)|))
    ensures var w := Encode(m);
            && H.Enabled(h, H.Receives(w[LEN_MAX..]))
            && H.Next(h, H.Receives(w[LEN_MAX..])) == Arrived(h, m)
  {
    hide Encode, DecodeLength, DecodeFrame, H.Deliver;
    FrameRoundTrip(m);
    var w := Encode(m);
    assert w[..LEN_MAX] + w[LEN_MAX..] == w;
  }

  /** The guest's packet is sent, received and dispatched. */
  lemma PacketToHost(form: H.DrainForm, actions: seq<Action>, s: Session, m: Message) returns (more: seq<Action>)
    requires Leads(form, actions, s) && s.raw && s.toHost == [] && Sendable(m)
    requires s.guest.state == G.Running && s.guest.tx == Some(Tx(Encode(m), 0)) && s.guest.log.fault == NoFault
    requires s.host.state == H.Running && s.host.rx == Some(LengthWord)
    ensures Leads(form, more, s.(guest := s.guest.(tx := None), host := Arrived(s.host, m)))
  {
    hide Leads, Encode, H.Receive, H.Enabled, Arrived;
    var w := Encode(m);
    HostTakes(s.host, m);
    HostTakesRest(s.host.(rx := Some(Rx(w[..LEN_MAX], |w|))), m);
    ArrivedAnyRx(s.host, Some(Rx(w[..LEN_MAX], |w|)), m);
    assert TxRest(Some(Tx(w, 0)))[..|w|] == w && [] + w == w;
    more := Play(form, actions, s, OfGuest(G.Sends(|w|)));
    var t := Next(s, OfGuest(G.Sends(|w|)));
    assert t == s.(guest := s.guest.(tx := None), toHost := w);
    hide G.Next, G.Enabled, H.Next;
    more := Play(form, more, t, OfHost(H.Receives(w[..LEN_MAX])));
    t := t.(host := s.host.(rx := Some(Rx(w[..LEN_MAX], |w|))), toHost := w[LEN_MAX..]);
    more := Play(form, more, t, OfHost(H.Receives(w[LEN_MAX..])));
    assert w[LEN_MAX..][|w[LEN_MAX..]|..] == [];
  }

  lemma ArrivedAnyRx(h: H.Host, rx: Option<Rx>, m: Message)
    ensures Arrived(h.(rx := rx), m) == Arrived(h, m)
  {
    hide H.Deliver;
  }

  lemma GuestTakes(g: G.Guest, m: Message)
    requires g.state == G.Running && g.rx == Some(LengthWord) && g.toStdin == [] && G.Looping(g)
    requires Sendable(m) && m.header.proc in {STDIN, QUIT}
    ensures var w := Encode(m);
            var t := g.(rx := Some(Rx(w[..LEN_MAX], |w|)));
            && G.Enabled(g, G.Receives(w[..LEN_MAX], true)) && G.Next(g, G.Receives(w[..LEN_MAX], true)) == t
            && G.Enabled(t, G.Receives(w[LEN_MAX..], true))
            && G.Next(t, G.Receives(w[LEN_MAX..], true)) == G.Deliver(g, m)
  {
    hide Encode, DecodeLength, DecodeFrame;
    FrameRoundTrip(m);
    var w := Encode(m);
    assert [] + w[..LEN_MAX] == w[..LEN_MAX];
    assert w[..LEN_MAX] + w[LEN_MAX..] == w;
  }

  /** The host's packet is sent, received and dispatched. */
  lemma PacketToGuest(form: H.DrainForm, actions: seq<Action>, s: Session, m: Message) returns (more: seq<Action>)
    requires Leads(form, actions, s) && s.raw && s.toGuest == [] && Sendable(m) && m.header.proc in {STDIN, QUIT}
    requires s.host.state == H.Running && s.host.tx == Some(Tx(Encode(m), 0))
    requires s.guest.state == G.Running && s.guest.rx == Some(LengthWord) && s.guest.toStdin == [] && G.Looping(s.guest)
    ensures Leads(form, more, s.(host := s.host.(tx := None), guest := G.Deliver(s.guest, m)))
  {
    hide Leads, Encode, G.Receive, G.Deliver, G.Enabled;
    var w := Encode(m);
    GuestTakes(s.guest, m);
    assert TxRest(Some(Tx(w, 0)))[..|w|] == w && [] + w == w;
    more := Play(form, actions, s, OfHost(H.Sends(|w|)));
    var t := Next(s, OfHost(H.Sends(|w|)));
    assert t == s.(host := s.host.(tx := None), toGuest := w);
    hide H.Next, H.Enabled, G.Next;
    more := Play(form, more, t, OfGuest(G.Receives(w[..LEN_MAX], true)));
    t := t.(guest := s.guest.(rx := Some(Rx(w[..LEN_MAX], |w|))), toGuest := w[LEN_MAX..]);
    more := Play(form, more, t, OfGuest(G.Receives(w[LEN_MAX..], true)));
    assert w[LEN_MAX..][|w[LEN_MAX..]|..] == [];
  }

  // The end of the application.

  /** The application has ended, and then another child, before standard error was read to its end. */
  function Ended(g: G.Guest, status: int32, other: Option<int32>): G.Guest {
    var a := G.Reap(G.AppOut(g, []), true, status);
    G.AppErr(if other.Some? then G.Reap(a, false, other.value) else a, [])
  }

  function Reported(status: int32, other: Option<int32>): int32 {
    if other.Some? then other.value else status
  }

  lemma EndedIs(g: G.Guest, status: int32, other: Option<int32>)
    requires !g.appOutEOF && !g.appErrEOF && !g.appQuit
    ensures var n := Ended(g, status, other);
            var m := ExitMessage(Reported(status, other), g.serial);
            n == g.(appOutEOF := true, appErrEOF := true, appQuit := true, exitstatus := Reported(status, other),
                    tx := Some(Tx(Encode(m), 0)), serial := G.NextSerial(g.serial),
                    log := g.log.(sent := g.log.sent + [m], appReap := |g.log.reaped|,
                                  reaped := n.log.reaped, exitReap := |n.log.reaped|))
    ensures Ended(g, status, other).log.reaped ==
            g.log.reaped + [status] + if other.Some? then [other.value] else []
  {
    hide Encode, EncodeI32;
  }

  lemma AppEnds(form: H.DrainForm, actions: seq<Action>, s: Session, status: int32, other: Option<int32>)
    returns (more: seq<Action>)
    requires Leads(form, actions, s) && s.raw && s.guest.state == G.Running && G.Looping(s.guest) && s.guest.tx.None?
    requires s.guest.log.starts > 0 && !s.guest.appOutEOF && !s.guest.appErrEOF && !s.guest.appQuit
    ensures Leads(form, more, s.(guest := Ended(s.guest, status, other)))
  {
    hide Leads, Encode, EncodeI32;
    more := Play(form, actions, s, OfGuest(G.AppWritesOut([])));
    var t := s.(guest := s.guest.(appOutEOF := true));
    more := Play(form, more, t, OfGuest(G.Reaps(true, status)));
    t := t.(guest := G.Reap(t.guest, true, status));
    if other.Some? {
      more := Play(form, more, t, OfGuest(G.Reaps(false, other.value)));
      t := t.(guest := G.Reap(t.guest, false, other.value));
    }
    more := Play(form, more, t, OfGuest(G.AppWritesErr([])));
  }

  // Standard error, as written.

  /** The application has written `data` to its standard error, and the host has received it. */
  function WithStderr(data: seq<byte>): Session {
    var m := StderrMessage(data, 0);
    var s := Ready(H.AsWritten);
    s.(host := s.host.(err := data, rx := if |data| < H.MAX_QUEUED_DATA then Some(LengthWord) else None,
                       log := s.host.log.(received := [m])),
       guest := s.guest.(serial := 1, log := s.guest.log.(stderrRead := data, sent := [m])))
  }

  lemma StderrPlays(data: seq<byte>) returns (actions: seq<Action>)
    requires 0 < |data| <= G.APP_IO
    ensures Leads(H.AsWritten, actions, WithStderr(data))
  {
    hide Leads, Encode;
    var m := StderrMessage(data, 0);
    actions := HandshakePlays(H.AsWritten);
    var s := Ready(H.AsWritten);
    actions := Play(H.AsWritten, actions, s, OfGuest(G.AppWritesErr(data)));
    s := Next(s, OfGuest(G.AppWritesErr(data)));
    actions := PacketToHost(H.AsWritten, actions, s, m);
    s := s.(guest := s.guest.(tx := None), host := Arrived(s.host, m));
    assert [] + data == data && [] + [m] == [m];
    assert s == WithStderr(data);
  }

  /**
    * One byte of standard error is enough for a shutdown that hangs: the host has
    * been told that the application has ended, and never finishes.
    */
  lemma ShutdownHangs() returns (actions: seq<Action>)
    ensures RunFromStart(H.AsWritten, None, actions).Some?
    ensures var s := RunFromStart(H.AsWritten, None, actions).value;
            && s.host.state == H.Stopping && s.host.log.exited == [0] && s.guest.log.stderrRead == s.host.err == [120]
            && (forall events :: !HostTheorems.Finishes(s.host, events))
  {
    hide Encode, EncodeI32, Run, HostTheorems.Finishes, H.HostOk;
    actions := StderrPlays([120]);
    var s := WithStderr([120]);
    actions := AppEnds(H.AsWritten, actions, s, 0, None);
    EndedIs(s.guest, 0, None);
    var m := ExitMessage(0, 1);
    s := s.(guest := Ended(s.guest, 0, None));
    actions := PacketToHost(H.AsWritten, actions, s, m);
    ExitArrives(s.host, 0, 1);
    s := s.(guest := s.guest.(tx := None), host := Arrived(s.host, m));
    HostIsOk(H.AsWritten, actions, s);
    HostTheorems.ShutdownExactly(s.host);
  }

  /** The host is told, and has something left to write. */
  lemma ExitArrives(h: H.Host, status: int32, serial: uint32)
    requires h.tx.None? && h.state == H.Running
    ensures var m := ExitMessage(status, serial);
            var told := h.(rx := None, log := h.log.(received := h.log.received + [m],
                                                      exited := h.log.exited + [status]));
            Arrived(h, m) == H.SetState(told, if h.out == [] && h.err == [] then H.Finished else H.Stopping)
  {
    hide Encode, EncodeI32, DecodeI32, H.SetState;
    I32RoundTrip(status);
    assert EncodeI32(status)[..4] == EncodeI32(status);
    var t := h.(rx := None, log := h.log.(received := h.log.received + [ExitMessage(status, serial)],
                                          exited := h.log.exited + [status]));
    HostTheorems.SetStateRank(t, H.Finished);
    HostTheorems.SetStateRank(t, H.Stopping);
  }

  /** With 1024 bytes of it the host stops reading and is never told. */
  lemma ConsoleWedges() returns (actions: seq<Action>)
    ensures RunFromStart(H.AsWritten, None, actions).Some?
    ensures var s := RunFromStart(H.AsWritten, None, actions).value;
            && s.host.state == H.Running && s.host.form == H.AsWritten && HostTheorems.Wedged(s.host)
            && !(exists writes :: HostTheorems.Releases(s.host, writes))
  {
    hide Encode, Run, HostTheorems.Releases, H.HostOk;
    var data := seq(H.MAX_QUEUED_DATA, i => 120);
    actions := StderrPlays(data);
    var s := WithStderr(data);
    HostIsOk(H.AsWritten, actions, s);
    HostTheorems.BackPressureExactly(s.host);
  }

  // The exit status.

  /** The application ends with status 256, another child with 0, and the host is told 0. */
  lemma OtherStatus(form: H.DrainForm) returns (actions: seq<Action>)
    ensures RunFromStart(form, None, actions).Some?
    ensures var s := RunFromStart(form, None, actions).value;
            && s.host.log.exited == [0] && s.host.state == H.Finished
            && s.guest.log.reaped == [256, 0] && s.guest.log.appReap == 0 && s.guest.log.exitReap == 2
  {
    hide Encode, EncodeI32, Run;
    actions := HandshakePlays(form);
    var s := Ready(form);
    actions := AppEnds(form, actions, s, 256, Some(0));
    EndedIs(s.guest, 256, Some(0));
    s := s.(guest := Ended(s.guest, 256, Some(0)));
    actions := PacketToHost(form, actions, s, ExitMessage(0, 0));
    ExitArrives(s.host, 0, 0);
    FinishedLog(s.host.(rx := None, log := s.host.log.(received := [ExitMessage(0, 0)], exited := [0])));
  }

  lemma FinishedLog(h: H.Host)
    requires h.state == H.Running && h.tx.None?
    ensures var m := QuitMessage(H.HeaderSerial(h.serial));
            var n := H.SetState(h, H.Finished);
            n == h.(state := H.Finished, tx := Some(Tx(Encode(m), 0)), serial := H.NextSerial(h.serial),
                    log := h.log.(outbox := h.log.outbox + [m], garbled := h.log.cut))
  {
    hide Encode;
  }

  // A guest that has stopped reading.

  /** The user has typed the end of input, and the guest has closed the application's. */
  function AfterEnd(form: H.DrainForm): Session {
    var m := StdinMessage([], 0);
    var s := Ready(form);
    s.(host := s.host.(localEOF := true, serial := 1, log := s.host.log.(outbox := [m])),
       guest := s.guest.(rx := None, appinOpen := false, log := s.guest.log.(received := [m])))
  }

  lemma EndPlays(form: H.DrainForm) returns (actions: seq<Action>)
    ensures Leads(form, actions, AfterEnd(form))
  {
    hide Leads, Encode;
    var m := StdinMessage([], 0);
    actions := HandshakePlays(form);
    var s := Ready(form);
    actions := Play(form, actions, s, OfHost(H.ReadsStdin([])));
    s := Next(s, OfHost(H.ReadsStdin([])));
    assert [] + [m] == [m];
    actions := PacketToGuest(form, actions, s, m);
    s := s.(host := s.host.(tx := None), guest := G.Deliver(s.guest, m));
    assert s.host.log.stdinRead == [];
    assert s == AfterEnd(form);
  }

  /** Then the application has ended, and the host has been told and sends QUIT. */
  lemma EndAndExitPlay(form: H.DrainForm) returns (actions: seq<Action>, s: Session)
    ensures Leads(form, actions, s)
    ensures s.host.state == H.Finished && s.host.tx == Some(Tx(Encode(QuitMessage(1)), 0))
    ensures s.host.log.closed == [] && s.toGuest == []
    ensures GuestTheorems.Deaf(s.guest) && G.Looping(s.guest)
  {
    hide Encode, EncodeI32, Leads, Ended, Arrived, H.SetState;
    actions := EndPlays(form);
    s := AfterEnd(form);
    actions := AppEnds(form, actions, s, 0, None);
    EndedIs(s.guest, 0, None);
    s := s.(guest := Ended(s.guest, 0, None));
    actions := PacketToHost(form, actions, s, ExitMessage(0, 0));
    ExitArrives(s.host, 0, 0);
    FinishedLog(s.host.(rx := None, log := s.host.log.(received := s.host.log.received + [ExitMessage(0, 0)],
                                                       exited := s.host.log.exited + [0])));
    s := s.(guest := s.guest.(tx := None), host := Arrived(s.host, ExitMessage(0, 0)));
  }

  /**
    * After the end of input the guest does not read QUIT, all of which is there:
    * the console is closed, and the guest's loop goes on.
    */
  lemma QuitUnread(form: H.DrainForm) returns (actions: seq<Action>)
    ensures RunFromStart(form, None, actions).Some?
    ensures var s := RunFromStart(form, None, actions).value;
            && s.host.state == H.Inactive && s.host.log.closed == [false]
            && s.toGuest == Encode(QuitMessage(1))
            && GuestTheorems.Deaf(s.guest) && G.Looping(s.guest)
  {
    hide Encode, EncodeI32, Run;
    var s;
    actions, s := EndAndExitPlay(form);
    actions := QuitPlays(form, actions, s);
  }

  lemma QuitPlays(form: H.DrainForm, actions: seq<Action>, s: Session) returns (more: seq<Action>)
    requires Leads(form, actions, s) && s.host.state == H.Finished && s.toGuest == [] && s.host.log.closed == []
    requires s.host.tx == Some(Tx(Encode(QuitMessage(1)), 0))
    ensures RunFromStart(form, None, more).Some?
    ensures var n := RunFromStart(form, None, more).value;
            && n.host.state == H.Inactive && n.host.log.closed == [false]
            && n.toGuest == Encode(QuitMessage(1)) && n.guest == s.guest
  {
    hide Encode, Run;
    var w := Encode(QuitMessage(1));
    assert TxRest(Some(Tx(w, 0)))[..|w|] == w && [] + w == w;
    more := Play(form, actions, s, OfHost(H.Sends(|w|)));
  }
}
