/**
  * The packet that is cut short.  When the host dispatches EXIT it discards tx,
  * even if a part of that packet was sent.  What reaches the guest is then a
  * sequence of whole packets if and only if tx was empty or unsent, and a run
  * shows what a guest makes of the rest.
  */
module SessionCut {
  import opened Options
  import opened Xdr
  import opened Protocol
  import opened Flow
  import opened Session
  import opened SessionInvariant
  import opened SessionIn
  import opened SessionRuns
  import H = HostMachine
  import G = GuestMachine

  /** Bytes that are a sequence of whole packets. */
  ghost predicate Whole(x: seq<byte>) {
    exists ms: seq<Message> :: AllSendable(ms) && x == Wire(ms)
  }

  lemma SameWord(a: Message, b: Message)
    requires Sendable(a) && Sendable(b) && Encode(a)[..LEN_MAX] == Encode(b)[..LEN_MAX]
    ensures |Encode(a)| == |Encode(b)|
  {
    hide Encode;
    FrameRoundTrip(a);
    FrameRoundTrip(b);
  }

  /** Packets, and then a part of one, are not a sequence of packets. */
  lemma {:induction false} PartIsNotWhole(front: seq<Message>, m: Message, k: nat, ms: seq<Message>)
    requires AllSendable(front) && Sendable(m) && 0 < k < |Encode(m)| && AllSendable(ms)
    ensures Wire(ms) != Wire(front) + Encode(m)[..k]
  {
    hide Encode;
    var part := Encode(m)[..k];
    var x := Wire(front) + part;
    if Wire(ms) == x {
      assert ms != [];
      var first := Encode(ms[0]);
      var rest := Wire(ms[1..]);
      assert x == first + rest;
      if front == [] {
        assert x == part;
        assert first[..LEN_MAX] == x[..LEN_MAX] == Encode(m)[..LEN_MAX];
        SameWord(ms[0], m);
        assert false;
      } else {
        var head := Encode(front[0]);
        var tail := Wire(front[1..]) + part;
        assert x == head + tail;
        assert first[..LEN_MAX] == x[..LEN_MAX] == head[..LEN_MAX];
        SameWord(ms[0], front[0]);
        assert rest == x[|head|..] == tail;
        PartIsNotWhole(front[1..], m, k, ms[1..]);
      }
    }
  }

  /** The bytes that have left the host for a guest that runs, in terms of tx. */
  lemma LeftTheHost(s: Session)
    requires Inv(s) && G.Looping(s.guest) && s.guest.state == G.Running && s.host.state == H.Running
    ensures var x := RxData(s.guest.rx) + s.toGuest;
            Whole(x) <==> s.host.tx.None? || s.host.tx.value.offset == 0
  {
    hide OutFlow, InData, G.GuestOk, H.DeliveryOk, H.SignalsOk, H.QueuesOk, Encode, H.OutboxShape;
    var x := RxData(s.guest.rx) + s.toGuest;
    var outbox := s.host.log.outbox;
    assert Queue(s.guest.log.received, outbox, x + TxRest(s.host.tx), true);
    hide Inv, InFlow;
    if s.host.tx.None? {
      assert x + TxRest(s.host.tx) == x;
    } else {
      SentPart(s.guest.log.received, outbox, s.host.tx.value, x);
    }
  }

  lemma SentPart(received: seq<Message>, outbox: seq<Message>, tx: Tx, x: seq<byte>)
    requires outbox != [] && AllSendable(outbox) && TxOpen(tx) && tx.wire == Encode(H.Last(outbox))
    requires Queue(received, outbox, x + TxRest(Some(tx)), true)
    ensures Whole(x) <==> tx.offset == 0
  {
    hide Encode;
    var m := H.Last(outbox);
    var pending := outbox[|received|..];
    assert pending != [] by { assert |TxRest(Some(tx))| > 0; }
    var front := pending[..|pending| - 1];
    assert pending == front + [m];
    WireAppend(front, m);
    var whole := Encode(m);
    assert |x| == |Wire(front)| + tx.offset;
    assert x == (Wire(front) + whole)[..|x|] == Wire(front) + whole[..tx.offset];
    if tx.offset == 0 {
      assert x == Wire(front);
    } else {
      forall ms: seq<Message> | AllSendable(ms) ensures x != Wire(ms) {
        PartIsNotWhole(front, m, tx.offset, ms);
      }
    }
  }

  /**
    * Framing towards the guest.  When the host, in any run, dispatches EXIT,
    * the bytes that have left it for a running guest are whole packets, and so
    * a QUIT sent behind them can be recognised, if and only if it had no packet
    * in tx of which a part was sent.
    */
  lemma FramedUnlessCut(form: H.DrainForm, escape: Option<byte>, actions: seq<Action>, chunk: seq<byte>)
    requires RunFromStart(form, escape, actions).Some?
    requires Enabled(RunFromStart(form, escape, actions).value, OfHost(H.Receives(chunk)))
    requires var s := RunFromStart(form, escape, actions).value;
             var n := Next(s, OfHost(H.Receives(chunk)));
             && s.host.state == H.Running && n.host.state in {H.Stopping, H.Finished}
             && G.Looping(s.guest) && s.guest.state == G.Running
    ensures var s := RunFromStart(form, escape, actions).value;
            var n := Next(s, OfHost(H.Receives(chunk)));
            Whole(RxData(n.guest.rx) + n.toGuest) <==> s.host.tx.None? || s.host.tx.value.offset == 0
  {
    hide RunFromStart, H.Next, Whole, H.Enabled;
    RunOk(form, escape, actions);
    LeftTheHost(RunFromStart(form, escape, actions).value);
  }

  // A run in which a packet is cut.

  /** What the user typed, what the guest makes of it, EXIT, and QUIT. */
  const TYPED: seq<byte> := [120]
  const TYPED_MESSAGE := StdinMessage(TYPED, 0)
  const EXIT_MESSAGE := ExitMessage(0, 0)
  const QUIT_MESSAGE := QuitMessage(1)

  /** The host before each of its events, when the command has been started. */
  function HostAt(k: nat): H.Host
    requires k <= 5
  {
    var w, e, q := Encode(TYPED_MESSAGE), Encode(EXIT_MESSAGE), Encode(QUIT_MESSAGE);
    var log := H.NoLog.(stdinRead := TYPED, outbox := [TYPED_MESSAGE]);
    var h := ReadyHost(H.AsMeant);
    if k == 0 then h
    else if k == 1 then h.(tx := Some(Tx(w, 0)), serial := 1, log := log)
    else if k == 2 then h.(tx := Some(Tx(w, 20)), serial := 1, log := log)
    else if k == 3 then h.(rx := Some(Rx(e[..4], 24)), tx := Some(Tx(w, 20)), serial := 1, log := log)
    else
      h.(state := H.Finished, rx := None, tx := Some(Tx(q, k - 4)), serial := 2,
         log := log.(outbox := [TYPED_MESSAGE, QUIT_MESSAGE], received := [EXIT_MESSAGE], exited := [0],
                     cut := true, garbled := true))
  }

  function HostEventAt(k: nat): H.HostEvent
    requires k < 5
  {
    var e := Encode(EXIT_MESSAGE);
    if k == 0 then H.ReadsStdin(TYPED)
    else if k == 1 then H.Sends(20)
    else if k == 2 then H.Receives(e[..4])
    else if k == 3 then H.Receives(e[4..])
    else H.Sends(1)
  }

  lemma Sizes()
    ensures |Encode(TYPED_MESSAGE)| == 21 && |Encode(EXIT_MESSAGE)| == 24 && |Encode(QUIT_MESSAGE)| == 20
    ensures DecodeLength(Encode(TYPED_MESSAGE)[..4]) == Ok(21)
    ensures DecodeLength(Encode(EXIT_MESSAGE)[..4]) == Ok(24)
    ensures DecodeFrame(Encode(EXIT_MESSAGE)) == Some(EXIT_MESSAGE)
    ensures DecodeI32(EXIT_MESSAGE.payload[..4]) == 0
  {
    FrameRoundTrip(TYPED_MESSAGE);
    FrameRoundTrip(EXIT_MESSAGE);
    assert |Encode(TYPED_MESSAGE)| == 21;
    assert |Encode(EXIT_MESSAGE)| == 24;
    I32RoundTrip(0);
    assert EXIT_MESSAGE.payload[..4] == EncodeI32(0);
  }

  lemma HostSendStep(k: nat)
    requires k < 2 || k == 4
    ensures H.Enabled(HostAt(k), HostEventAt(k))
    ensures H.Next(HostAt(k), HostEventAt(k)) == HostAt(k + 1)
  {
    hide Encode, EncodeI32, DecodeLength, DecodeFrame;
    Sizes();
  }

  lemma HostWordStep()
    ensures H.Enabled(HostAt(2), HostEventAt(2))
    ensures H.Next(HostAt(2), HostEventAt(2)) == HostAt(3)
  {
    hide Encode, EncodeI32, DecodeLength, DecodeFrame;
    Sizes();
    var e := Encode(EXIT_MESSAGE);
    assert [] + e[..4] == e[..4];
  }

  lemma HostExitStep()
    ensures H.Enabled(HostAt(3), HostEventAt(3))
    ensures H.Next(HostAt(3), HostEventAt(3)) == HostAt(4)
  {
    hide Encode, EncodeI32, DecodeI32, DecodeLength, DecodeFrame;
    Sizes();
    var e := Encode(EXIT_MESSAGE);
    assert e[..4] + e[4..] == e;
  }

  /** What the guest takes for the typed message: its beginning, and the first byte of QUIT. */
  function Mixed(): (frame: seq<byte>) {
    var w, q := Encode(TYPED_MESSAGE), Encode(QUIT_MESSAGE);
    w[..20] + q[..1]
  }

  const MIXED_MESSAGE := StdinMessage([0], 0)

  /** The guest before each of its events. */
  function GuestAt(k: nat): G.Guest
    requires k <= 8
  {
    var w, e := Encode(TYPED_MESSAGE), Encode(EXIT_MESSAGE);
    var g := ReadyGuest();
    if k == 0 then g
    else if k == 1 then g.(rx := Some(Rx(w[..4], 21)))
    else
      var m := g.(rx := Some(Rx(w[..20], 21)), appOutEOF := k >= 3, appErrEOF := k >= 4);
      if k <= 4 then m
      else
        var done := m.(appQuit := true, serial := 1,
                       log := g.log.(reaped := [0], appReap := 0, exitReap := 1, sent := [EXIT_MESSAGE]));
        if k == 5 then done.(tx := Some(Tx(e, 0)))
        else if k == 6 then done
        else if k == 7 then done.(rx := None, toStdin := [0], log := done.log.(received := [MIXED_MESSAGE]))
        else done.(rx := Some(LengthWord), log := done.log.(received := [MIXED_MESSAGE], stdinWritten := [0]))
  }

  function GuestEventAt(k: nat): G.GuestEvent
    requires k < 8
  {
    var w, q := Encode(TYPED_MESSAGE), Encode(QUIT_MESSAGE);
    if k == 0 then G.Receives(w[..4], true)
    else if k == 1 then G.Receives(w[4..20], true)
    else if k == 2 then G.AppWritesOut([])
    else if k == 3 then G.AppWritesErr([])
    else if k == 4 then G.Reaps(true, 0)
    else if k == 5 then G.Sends(24)
    else if k == 6 then G.Receives(q[..1], true)
    else G.AppReads(1)
  }

  lemma MixedFrame()
    ensures |Mixed()| == 21 && DecodeFrame(Mixed()) == Some(MIXED_MESSAGE)
  {
    var w, q := Encode(TYPED_MESSAGE), Encode(QUIT_MESSAGE);
    FrameRoundTrip(TYPED_MESSAGE);
    assert Mixed()[LEN_MAX..FRAME_MIN] == w[LEN_MAX..FRAME_MIN];
    assert q[0] == 0;
    assert Mixed()[FRAME_MIN..] == [0];
  }

  lemma GuestPartStep(k: nat)
    requires k < 2
    ensures G.Enabled(GuestAt(k), GuestEventAt(k))
    ensures G.Next(GuestAt(k), GuestEventAt(k)) == GuestAt(k + 1)
  {
    hide Encode, EncodeI32, DecodeLength, DecodeFrame;
    Sizes();
    var w := Encode(TYPED_MESSAGE);
    assert [] + w[..4] == w[..4] && w[..4] + w[4..20] == w[..20];
  }

  lemma GuestAppStep(k: nat)
    requires 2 <= k < 6
    ensures G.Enabled(GuestAt(k), GuestEventAt(k))
    ensures G.Next(GuestAt(k), GuestEventAt(k)) == GuestAt(k + 1)
  {
    hide Encode, EncodeI32, DecodeLength, DecodeFrame;
    Sizes();
  }

  lemma GuestMixedStep(k: nat)
    requires 6 <= k < 8
    ensures G.Enabled(GuestAt(k), GuestEventAt(k))
    ensures G.Next(GuestAt(k), GuestEventAt(k)) == GuestAt(k + 1)
  {
    Sizes();
    MixedFrame();
    hide Encode, EncodeI32, DecodeLength, DecodeFrame;
  }

  lemma HostStep(k: nat)
    requires k < 5
    ensures H.Enabled(HostAt(k), HostEventAt(k))
    ensures H.Next(HostAt(k), HostEventAt(k)) == HostAt(k + 1)
  {
    hide HostAt, HostEventAt, H.Enabled, H.Next;
    if k < 2 || k == 4 {
      HostSendStep(k);
    } else if k == 2 {
      HostWordStep();
    } else {
      HostExitStep();
    }
  }

  lemma GuestStep(k: nat)
    requires k < 8
    ensures G.Enabled(GuestAt(k), GuestEventAt(k))
    ensures G.Next(GuestAt(k), GuestEventAt(k)) == GuestAt(k + 1)
  {
    hide GuestAt, GuestEventAt, G.Enabled, G.Next;
    if k < 2 {
      GuestPartStep(k);
    } else if k < 6 {
      GuestAppStep(k);
    } else {
      GuestMixedStep(k);
    }
  }

  /** The actions lead from the start to these states of host, guest and channels. */
  ghost predicate Reaches(actions: seq<Action>, host: nat, guest: nat, toGuest: seq<byte>, toHost: seq<byte>)
    requires host <= 5 && guest <= 8
  {
    Leads(H.AsMeant, actions, Session(HostAt(host), GuestAt(guest), true, toGuest, toHost))
  }

  /** The next event of the host changes the channels in this way. */
  ghost predicate HostMoves(k: nat, toGuest: seq<byte>, toHost: seq<byte>, toGuest': seq<byte>, toHost': seq<byte>)
    requires k < 5
  {
    match HostEventAt(k)
    case Receives(chunk) => toHost == chunk + toHost' && toGuest' == toGuest
    case Sends(n) =>
      var rest := TxRest(HostAt(k).tx);
      n <= |rest| && toGuest' == toGuest + rest[..n] && toHost' == toHost
    case _ => toGuest' == toGuest && toHost' == toHost
  }

  lemma HostPlays(actions: seq<Action>, host: nat, guest: nat, toGuest: seq<byte>, toHost: seq<byte>,
                  toGuest': seq<byte>, toHost': seq<byte>)
    returns (more: seq<Action>)
    requires host < 5 && guest <= 8 && Reaches(actions, host, guest, toGuest, toHost)
    requires HostMoves(host, toGuest, toHost, toGuest', toHost')
    ensures Reaches(more, host + 1, guest, toGuest', toHost')
  {
    var e := HostEventAt(host);
    HostStep(host);
    hide HostAt, HostEventAt, GuestAt, H.Next, H.Enabled, Leads, TxRest;
    assert e.Receives? ==> toHost[|e.chunk|..] == toHost';
    more := Play(H.AsMeant, actions, Session(HostAt(host), GuestAt(guest), true, toGuest, toHost), OfHost(e));
  }

  ghost predicate GuestMoves(k: nat, toGuest: seq<byte>, toHost: seq<byte>, toGuest': seq<byte>, toHost': seq<byte>)
    requires k < 8
  {
    match GuestEventAt(k)
    case Receives(chunk, _) => toGuest == chunk + toGuest' && toHost' == toHost
    case Sends(n) =>
      var rest := TxRest(GuestAt(k).tx);
      n <= |rest| && toHost' == toHost + rest[..n] && toGuest' == toGuest
    case _ => toGuest' == toGuest && toHost' == toHost
  }

  lemma GuestPlays(actions: seq<Action>, host: nat, guest: nat, toGuest: seq<byte>, toHost: seq<byte>,
                   toGuest': seq<byte>, toHost': seq<byte>)
    returns (more: seq<Action>)
    requires host <= 5 && guest < 8 && Reaches(actions, host, guest, toGuest, toHost)
    requires GuestMoves(guest, toGuest, toHost, toGuest', toHost')
    ensures Reaches(more, host, guest + 1, toGuest', toHost')
  {
    var e := GuestEventAt(guest);
    GuestStep(guest);
    hide HostAt, GuestAt, GuestEventAt, G.Next, G.Enabled, Leads, TxRest;
    assert e.Receives? ==> toGuest[|e.chunk|..] == toGuest';
    more := Play(H.AsMeant, actions, Session(HostAt(host), GuestAt(guest), true, toGuest, toHost), OfGuest(e));
  }

  /** The typed byte on its way: 20 of its packet's 21 bytes are sent and received. */
  lemma TypingPlays(first: seq<Action>) returns (actions: seq<Action>)
    requires Reaches(first, 0, 0, [], [])
    ensures Reaches(actions, 2, 2, [], [])
  {
    hide Reaches, Encode, EncodeI32;
    Sizes();
    var w := Encode(TYPED_MESSAGE);
    assert TxRest(Some(Tx(w, 0)))[..20] == w[..20];
    assert w[..20] == w[..4] + w[4..20];
    actions := HostPlays(first, 0, 0, [], [], [], []);
    actions := HostPlays(actions, 1, 0, [], [], w[..20], []);
    actions := GuestPlays(actions, 2, 0, w[..20], [], w[4..20], []);
    actions := GuestPlays(actions, 2, 1, w[4..20], [], [], []);
  }

  /** The application ends, and EXIT reaches the host. */
  lemma ExitPlays(first: seq<Action>) returns (actions: seq<Action>)
    requires Reaches(first, 2, 2, [], [])
    ensures Reaches(actions, 4, 6, [], [])
  {
    hide Reaches, Encode, EncodeI32;
    Sizes();
    var e := Encode(EXIT_MESSAGE);
    assert TxRest(Some(Tx(e, 0)))[..24] == e;
    assert e == e[..4] + e[4..];
    actions := GuestPlays(first, 2, 2, [], [], [], []);
    actions := GuestPlays(actions, 2, 3, [], [], [], []);
    actions := GuestPlays(actions, 2, 4, [], [], [], []);
    actions := GuestPlays(actions, 2, 5, [], [], [], e);
    actions := HostPlays(actions, 2, 6, [], e, [], e[4..]);
    actions := HostPlays(actions, 3, 6, [], e[4..], [], []);
  }

  /** QUIT follows, and the guest takes its first byte for the typed one. */
  lemma QuitPlays(first: seq<Action>) returns (actions: seq<Action>)
    requires Reaches(first, 4, 6, [], [])
    ensures Reaches(actions, 5, 8, [], [])
  {
    hide Reaches, Encode, EncodeI32;
    Sizes();
    var q := Encode(QUIT_MESSAGE);
    assert TxRest(Some(Tx(q, 0)))[..1] == q[..1];
    actions := HostPlays(first, 4, 6, [], [], q[..1], []);
    actions := GuestPlays(actions, 5, 6, q[..1], [], [], []);
    actions := GuestPlays(actions, 5, 7, [], [], [], []);
  }

  /**
    * Without its condition the claim about the application's input is false: in
    * this run the user types one byte, and the application is given another.
    */
  lemma CutInputIsWrong() returns (actions: seq<Action>)
    ensures RunFromStart(H.AsMeant, None, actions).Some?
    ensures var s := RunFromStart(H.AsMeant, None, actions).value;
            && s.host.log.stdinRead == [120] && s.guest.log.stdinWritten == [0]
            && s.host.log.garbled && s.guest.log.fault == NoFault
  {
    actions := HandshakePlays(H.AsMeant);
    assert Reaches(actions, 0, 0, [], []);
    hide Reaches;
    actions := TypingPlays(actions);
    actions := ExitPlays(actions);
    actions := QuitPlays(actions);
    LastState(actions);
  }

  lemma LastState(actions: seq<Action>)
    requires Reaches(actions, 5, 8, [], [])
    ensures RunFromStart(H.AsMeant, None, actions).Some?
    ensures var s := RunFromStart(H.AsMeant, None, actions).value;
            && s.host.log.stdinRead == [120] && s.guest.log.stdinWritten == [0]
            && s.host.log.garbled && s.guest.log.fault == NoFault
  {
    hide RunFromStart;
  }
}
