/**
  * The host side as it is programmed: an object whose callbacks update its
  * fields and its two packets in place.  Each callback is shown to be a run of
  * events of the machine in HostMachine, so everything that is proved of those
  * runs holds of this object.
  */
module HostConsoles {
  import opened Options
  import opened Xdr
  import opened Protocol
  import opened RpcPackets
  import H = HostMachine
  import HostInvariant
  import HostTheorems

  lemma FinishedIs(h: H.Host)
    requires h.state != H.Finished
    ensures var quit := QuitMessage(H.HeaderSerial(h.serial));
            var dropped := H.DropTx(h).log;
            H.SetState(h, H.Finished) ==
            h.(state := H.Finished, tx := Some(Tx(Encode(quit), 0)), serial := H.NextSerial(h.serial),
               log := dropped.(garbled := dropped.cut, outbox := dropped.outbox + [quit]))
  {
    HostInvariant.DropTxFields(h);
    hide H.DropTx, Encode, EncodeI32;
  }

  lemma DetachIs(h: H.Host)
    ensures H.Detach(h) ==
            if h.state == H.Inactive then h
            else h.(state := H.Inactive, rx := None, tx := None, out := [], outOffset := 0, err := [], errOffset := 0,
                    log := H.DropTx(h).log)
  {
    HostInvariant.DropTxFields(h);
    hide H.DropTx;
  }

  ghost function AfterExit(h: H.Host, m: Message): H.Host
    requires |m.payload| >= 4
  {
    H.SetState(Told(h, m), if h.out == [] && h.err == [] then H.Finished else H.Stopping)
  }

  ghost function Told(h: H.Host, m: Message): H.Host
    requires |m.payload| >= 4
  {
    h.(log := h.log.(received := h.log.received + [m],
                     exited := h.log.exited + [DecodeI32(m.payload[..4])]))
  }

  lemma ToldQueues(h: H.Host, m: Message)
    requires |m.payload| >= 4
    ensures Told(h, m).out == h.out && Told(h, m).err == h.err
  {
  }

  lemma DeliverIs(h: H.Host, m: Message)
    ensures H.Deliver(h, m) ==
            if m.header.status != STATUS_OK then H.Fail(h, BadStatus)
            else if m.header.proc == STDOUT then
              h.(out := h.out + m.payload, outOffset := if h.out == [] then 0 else h.outOffset,
                 log := h.log.(received := h.log.received + [m]))
            else if m.header.proc == STDERR then
              h.(err := h.err + m.payload, errOffset := if h.err == [] then 0 else h.errOffset,
                 log := h.log.(received := h.log.received + [m]))
            else if m.header.proc == EXIT then
              if |m.payload| < 4 then H.Fail(h, BadExitPayload) else AfterExit(h, m)
            else H.Fail(h, BadProc)
  {
    hide H.Fail, H.SetState, DecodeI32;
  }

  ghost function StdoutTaken(h: H.Host, n: nat): H.Host
    requires h.outOffset + n <= |h.out|
  {
    var offset := h.outOffset + n;
    h.(outOffset := offset, log := h.log.(stdoutWritten := h.log.stdoutWritten + h.out[h.outOffset..offset]))
  }

  lemma StdoutIs(h: H.Host, n: nat)
    requires h.outOffset + n <= |h.out|
    ensures var t := StdoutTaken(h, n);
            && t.outOffset == h.outOffset + n && t.out == h.out && t.err == h.err
            && H.StdoutWrite(h, n) ==
               if t.outOffset == |t.out| then H.Drained(t.(out := [], outOffset := 0), t.err) else t
  {
    hide H.Drained;
  }

  ghost function StderrTaken(h: H.Host, n: nat): H.Host
    requires n <= H.StderrOffer(h) && h.errOffset <= |h.err|
  {
    var from := H.StderrStart(h);
    h.(errOffset := h.errOffset + n, log := h.log.(stderrWritten := h.log.stderrWritten + h.err[from..from + n]))
  }

  lemma StderrIs(h: H.Host, n: nat)
    requires n <= H.StderrOffer(h) && h.errOffset <= |h.err|
    ensures var t := StderrTaken(h, n);
            && t.errOffset == h.errOffset + n && t.err == h.err && t.out == h.out
            && H.StderrWrite(h, n) ==
               if t.errOffset == |t.err| then H.Drained(t.(err := [], errOffset := 0), t.out) else t
  {
    hide H.Drained;
  }

  lemma FrameRxIs(h: H.Host, data: seq<byte>)
    requires h.state == H.Running && |data| > LEN_MAX
    ensures H.ProcessRx(h, data) == HostInvariant.Rearm(H.Dispatch(h, data))
  {
    hide H.Dispatch;
  }

  lemma FailedIs(h: H.Host, fault: Fault)
    ensures HostInvariant.Rearm(H.Fail(h, fault)) == H.Fail(h, fault)
  {
    hide H.DropTx;
  }

  // Runs of one callback.

  /** The bytes that the events take off the stream. */
  ghost function BytesIn(events: seq<H.HostEvent>): seq<byte> {
    if events == [] then [] else BytesOf(Some(events[0])) + BytesIn(events[1..])
  }

  /** One event happens, or none. */
  ghost predicate Happens(h: H.Host, event: Option<H.HostEvent>, n: H.Host) {
    if event.None? then n == h else H.Enabled(h, event.value) && n == H.Next(h, event.value)
  }

  ghost function BytesOf(event: Option<H.HostEvent>): seq<byte> {
    if event.Some? && event.value.Receives? then event.value.chunk else []
  }

  lemma MayReceive(h: H.Host, chunk: seq<byte>)
    requires H.HostOk(h) && h.rx.Some? && 0 < |chunk| <= h.rx.value.length - |h.rx.value.data|
    ensures H.Enabled(h, H.Receives(chunk)) && H.Next(h, H.Receives(chunk)) == H.Receive(h, chunk)
  {
    hide H.QueuesOk, H.OutboxOk, H.DeliveryOk, H.SignalsOk, H.Receive;
  }

  lemma MaySend(h: H.Host, n: nat)
    requires H.HostOk(h) && h.tx.Some? && h.tx.value.offset + n <= |h.tx.value.wire|
    ensures h.state != H.Inactive && TxOpen(h.tx.value)
    ensures H.HostOk(H.Send(h, n))
    ensures H.Enabled(h, H.Sends(n)) && Happens(h, Some(H.Sends(n)), H.Send(h, n))
    ensures n <= |TxRest(h.tx)| && SentBy(h, Some(H.Sends(n))) == TxRest(h.tx)[..n]
  {
    assert h.state != H.Inactive && TxOpen(h.tx.value) by {
      hide H.QueuesOk, H.OutboxOk, H.DeliveryOk, H.SignalsOk, Encode;
    }
    hide H.HostOk, H.Send;
    HostInvariant.SendOk(h, n);
  }

  lemma FailHappens(h: H.Host)
    requires h.state != H.Inactive
    ensures Happens(h, Some(H.HitsIoError), H.Fail(h, IoFault))
  {
    hide H.Fail;
  }

  lemma MayFail(h: H.Host)
    requires H.HostOk(h) && h.rx.Some?
    ensures h.state != H.Inactive
    ensures H.Enabled(h, H.HitsIoError) && H.Next(h, H.HitsIoError) == H.Fail(h, IoFault)
    ensures H.Fail(h, IoFault).state == H.Inactive
  {
    HostTheorems.CloseRank(h, true, IoFault);
    hide H.QueuesOk, H.OutboxOk, H.DeliveryOk, H.SignalsOk, H.Fail;
  }

  /** The bytes that an event puts on the stream. */
  ghost function BytesSent(h: H.Host, e: H.HostEvent): seq<byte>
    requires H.Enabled(h, e)
  {
    if e.Sends? then TxRest(h.tx)[..e.count] else []
  }

  ghost function BytesOut(h: H.Host, events: seq<H.HostEvent>): seq<byte>
    requires HostTheorems.Run(h, events).Some?
    decreases |events|
  {
    if events == [] then []
    else BytesSent(h, events[0]) + BytesOut(H.Next(h, events[0]), events[1..])
  }

  lemma TailThen<T>(s: seq<T>, e: T)
    requires s != []
    ensures (s + [e])[0] == s[0] && (s + [e])[1..] == s[1..] + [e]
  {
  }

  lemma {:induction false} RunThen(h: H.Host, events: seq<H.HostEvent>, e: H.HostEvent)
    requires HostTheorems.Run(h, events).Some? && H.Enabled(HostTheorems.Run(h, events).value, e)
    ensures HostTheorems.Run(h, events + [e]) == Some(H.Next(HostTheorems.Run(h, events).value, e))
    ensures BytesIn(events + [e]) == BytesIn(events) + BytesOf(Some(e))
    ensures BytesOut(h, events + [e]) == BytesOut(h, events) + BytesSent(HostTheorems.Run(h, events).value, e)
    decreases |events|
  {
    hide H.Enabled, H.Next, BytesSent, BytesOf;
    var all := events + [e];
    if events == [] {
      HostTheorems.RunOne(h, e);
      assert all == [e] && all[1..] == [];
      assert BytesOut(h, all) == BytesSent(h, e) + [] && BytesIn(all) == BytesOf(Some(e)) + [];
    } else {
      var n := H.Next(h, events[0]);
      RunThen(n, events[1..], e);
      TailThen(events, e);
      Associative(BytesOf(Some(events[0])), BytesIn(events[1..]), BytesOf(Some(e)));
      Associative(BytesSent(h, events[0]), BytesOut(n, events[1..]),
                  BytesSent(HostTheorems.Run(n, events[1..]).value, e));
    }
  }

  /** A run, what it takes off the stream and what it puts there. */
  ghost predicate Ran(h: H.Host, events: seq<H.HostEvent>, n: H.Host, taken: seq<byte>, sent: seq<byte>) {
    && HostTheorems.Run(h, events) == Some(n)
    && BytesIn(events) == taken
    && BytesOut(h, events) == sent
  }

  lemma RanNone(h: H.Host)
    ensures Ran(h, [], h, [], [])
  {
  }

  ghost function EventsOf(event: Option<H.HostEvent>): seq<H.HostEvent> {
    if event.Some? then [event.value] else []
  }

  ghost function SentBy(h: H.Host, event: Option<H.HostEvent>): seq<byte> {
    if event.Some? && H.Enabled(h, event.value) then BytesSent(h, event.value) else []
  }

  lemma RanThen(h: H.Host, events: seq<H.HostEvent>, n: H.Host, taken: seq<byte>, sent: seq<byte>,
                event: Option<H.HostEvent>, m: H.Host)
    requires Ran(h, events, n, taken, sent) && Happens(n, event, m)
    ensures Ran(h, events + EventsOf(event), m, taken + BytesOf(event), sent + SentBy(n, event))
  {
    hide H.Enabled, H.Next, BytesSent, BytesIn, BytesOut;
    if event.Some? {
      RunThen(h, events, event.value);
    } else {
      assert events + [] == events && taken + [] == taken && sent + [] == sent;
    }
  }

  // What the stream answers.

  /** What the next receive returns: nothing yet, a failure, the end, or at most so many bytes of what is there. */
  datatype Answer = Blocks | Fails | Ends | Gives(most: nat)

  /** What the next send returns: a failure, or how many bytes at most it takes. */
  datatype Sending = Refuses | Takes(most: nat)

  /** How a turn of the receive loop ends. */
  datatype Outcome = Again | WouldBlock | StreamEnd | Closed

  function Min(a: nat, b: nat): nat { if a < b then a else b }

  /** What is left to receive into rx. */
  function Room(h: H.Host): nat
    requires h.rx.Some?
  {
    if |h.rx.value.data| < h.rx.value.length then h.rx.value.length - |h.rx.value.data| else 0
  }

  function Chunk(h: H.Host, incoming: seq<byte>, most: nat): seq<byte>
    requires h.rx.Some?
  {
    incoming[..Min(most, Min(Room(h), |incoming|))]
  }

  datatype TurnResult = TurnResult(outcome: Outcome, event: Option<H.HostEvent>, rest: seq<byte>)

  /** One turn of the loop, on a stream that answers in this way. */
  ghost function TurnOf(h: H.Host, incoming: seq<byte>, answer: Answer): TurnResult
    requires h.rx.Some?
  {
    match answer
    case Blocks => TurnResult(WouldBlock, None, incoming)
    case Ends => TurnResult(StreamEnd, None, incoming)
    case Fails => TurnResult(Closed, Some(H.HitsIoError), incoming)
    case Gives(most) =>
      var chunk := Chunk(h, incoming, most);
      var e := H.Receives(chunk);
      if Room(h) == 0 then TurnResult(StreamEnd, None, incoming)
      else if chunk == [] || !H.Enabled(h, e) then TurnResult(WouldBlock, None, incoming)
      else
        TurnResult(if H.Next(h, e).state == H.Inactive then Closed else Again, Some(e), incoming[|chunk|..])
  }

  ghost function AfterEvent(h: H.Host, event: Option<H.HostEvent>): H.Host {
    if event.Some? && H.Enabled(h, event.value) then H.Next(h, event.value) else h
  }

  datatype ReadPass = ReadPass(host: H.Host, events: seq<H.HostEvent>, rest: seq<byte>, outcome: Outcome)

  /** The receive loop: turns until there is no rx, the stream has no more answers, or a turn ends it. */
  ghost function Reading(h: H.Host, incoming: seq<byte>, answers: seq<Answer>): ReadPass
    decreases |answers|
  {
    if h.rx.None? || answers == [] then ReadPass(h, [], incoming, Again)
    else
      var t := TurnOf(h, incoming, answers[0]);
      var n := AfterEvent(h, t.event);
      if t.outcome == Again then Behind(EventsOf(t.event), Reading(n, t.rest, answers[1..]))
      else ReadPass(n, EventsOf(t.event), t.rest, t.outcome)
  }

  ghost function Behind(events: seq<H.HostEvent>, pass: ReadPass): ReadPass {
    pass.(events := events + pass.events)
  }

  lemma ReadingTurn(h: H.Host, incoming: seq<byte>, answers: seq<Answer>, before: seq<H.HostEvent>)
    requires h.rx.Some? && answers != []
    ensures var t := TurnOf(h, incoming, answers[0]);
            var n := AfterEvent(h, t.event);
            Behind(before, Reading(h, incoming, answers)) ==
            if t.outcome == Again then Behind(before + EventsOf(t.event), Reading(n, t.rest, answers[1..]))
            else ReadPass(n, before + EventsOf(t.event), t.rest, t.outcome)
  {
    hide TurnOf, AfterEvent, EventsOf;
    var t := TurnOf(h, incoming, answers[0]);
    if t.outcome == Again {
      BehindTwice(before, EventsOf(t.event), Reading(AfterEvent(h, t.event), t.rest, answers[1..]));
    }
  }

  lemma BehindNone(events: seq<H.HostEvent>, h: H.Host, rest: seq<byte>)
    ensures Behind(events, ReadPass(h, [], rest, Again)) == ReadPass(h, events, rest, Again)
  {
    assert events + [] == events;
  }

  /** The part of the callback that reads. */
  ghost function ReadPart(h: H.Host, readable: bool, incoming: seq<byte>, answers: seq<Answer>): ReadPass {
    if readable then Reading(h, incoming, answers) else ReadPass(h, [], incoming, Again)
  }

  /** Whether it goes on to send. */
  ghost predicate GoesOnToSend(pass: ReadPass, writable: bool) {
    writable && pass.outcome in {Again, WouldBlock} && pass.host.tx.Some?
  }

  /** What becomes of the send, if there is one. */
  ghost function SendEvent(h: H.Host, sending: Sending): H.HostEvent {
    match sending
    case Refuses => H.HitsIoError
    case Takes(most) => H.Sends(Min(most, |TxRest(h.tx)|))
  }

  /** And which bytes it takes. */
  ghost function SendBytes(h: H.Host, sending: Sending): seq<byte> {
    match sending
    case Refuses => []
    case Takes(most) => TxRest(h.tx)[..Min(most, |TxRest(h.tx)|)]
  }

  lemma SendTakesNothing(h: H.Host, sending: Sending)
    ensures BytesOf(Some(SendEvent(h, sending))) == []
    ensures EventsOf(Some(SendEvent(h, sending))) == [SendEvent(h, sending)]
  {
  }

  lemma BehindTwice(a: seq<H.HostEvent>, b: seq<H.HostEvent>, pass: ReadPass)
    ensures Behind(a, Behind(b, pass)) == Behind(a + b, pass) && Behind([], pass) == pass
  {
    assert a + (b + pass.events) == a + b + pass.events && [] + pass.events == pass.events;
  }

  /** The receives are made of what the stream gives, in order. */
  ghost predicate Received(events: seq<H.HostEvent>, answers: seq<Answer>) {
    && |events| <= |answers|
    && forall i | 0 <= i < |events| ::
         || (events[i].Receives? && answers[i].Gives? && 0 < |events[i].chunk| <= answers[i].most)
         || (events[i] == H.HitsIoError && answers[i].Fails? && i == |events| - 1)
  }

  /**
    * Where the loop stops: only because there is nothing to receive into, the
    * stream has been asked for all its answers, it blocks or has no more bytes, it
    * is at its end, or the console was closed.  Nothing of what it took is lost.
    */
  lemma {:induction false} ReadingStops(h: H.Host, incoming: seq<byte>, answers: seq<Answer>)
    requires H.HostOk(h)
    ensures var r := Reading(h, incoming, answers);
            && HostTheorems.Run(h, r.events) == Some(r.host) && H.HostOk(r.host)
            && Received(r.events, answers) && BytesIn(r.events) + r.rest == incoming
            && match r.outcome
               case Again => r.host.rx.None? || |r.events| == |answers|
               case WouldBlock =>
                 && |r.events| < |answers|
                 && (answers[|r.events|] in {Blocks, Gives(0)} || (answers[|r.events|].Gives? && r.rest == []))
               case StreamEnd =>
                 && |r.events| < |answers|
                 && (answers[|r.events|].Ends? || (r.host.rx.Some? && Room(r.host) == 0))
               case Closed => r.host.state == H.Inactive
    decreases |answers|
  {
    hide H.HostOk, H.Next, H.Enabled, TurnOf, Received, AfterEvent;
    var r := Reading(h, incoming, answers);
    if h.rx.None? || answers == [] {
      ReceivedNone(answers);
      assert [] + incoming == incoming;
    } else {
      var t := TurnOf(h, incoming, answers[0]);
      TurnStops(h, incoming, answers[0]);
      if t.outcome == Again {
        var n := H.Next(h, t.event.value);
        ReadingStops(n, t.rest, answers[1..]);
        var rest := Reading(n, t.rest, answers[1..]);
        assert r.events == [t.event.value] + rest.events;
        assert r.events[1..] == rest.events;
        ReceivedMore(t.event.value, rest.events, answers);
        Associative(BytesOf(t.event), BytesIn(rest.events), r.rest);
      } else {
        ReceivedNone(answers);
        if t.event.Some? {
          HostTheorems.RunOne(h, t.event.value);
          ReceivedOne(t.event.value, answers);
          assert [t.event.value][1..] == [];
          assert BytesIn([t.event.value]) == BytesOf(t.event) + [];
        } else {
          assert [] + incoming == incoming;
        }
      }
    }
  }

  lemma ReceivedNone(answers: seq<Answer>)
    ensures Received([], answers)
  {
  }

  lemma ReceivedOne(e: H.HostEvent, answers: seq<Answer>)
    requires answers != []
    requires (e.Receives? && answers[0].Gives? && 0 < |e.chunk| <= answers[0].most) ||
             (e == H.HitsIoError && answers[0].Fails?)
    ensures Received([e], answers)
  {
  }

  lemma ReceivedMore(e: H.HostEvent, events: seq<H.HostEvent>, answers: seq<Answer>)
    requires answers != [] && Received(events, answers[1..])
    requires e.Receives? && answers[0].Gives? && 0 < |e.chunk| <= answers[0].most
    ensures Received([e] + events, answers)
  {
    var all := [e] + events;
    forall i | 0 <= i < |all|
      ensures (all[i].Receives? && answers[i].Gives? && 0 < |all[i].chunk| <= answers[i].most) ||
              (all[i] == H.HitsIoError && answers[i].Fails? && i == |all| - 1)
    {
      if i > 0 {
        assert all[i] == events[i - 1] && answers[i] == answers[1..][i - 1];
      }
    }
  }

  /** One turn, in plain terms: a stream that gives bytes is read, as many as it gives, fit, and are there. */
  lemma TurnStops(h: H.Host, incoming: seq<byte>, answer: Answer)
    requires H.HostOk(h) && h.rx.Some?
    ensures var t := TurnOf(h, incoming, answer);
            && (t.event.Some? ==> H.Enabled(h, t.event.value) && H.HostOk(H.Next(h, t.event.value)))
            && AfterEvent(h, t.event) == (if t.event.Some? then H.Next(h, t.event.value) else h)
            && BytesOf(t.event) + t.rest == incoming
            && match answer
               case Blocks => t.outcome == WouldBlock && t.event.None?
               case Ends => t.outcome == StreamEnd && t.event.None?
               case Fails =>
                 t.outcome == Closed && t.event == Some(H.HitsIoError) && H.Next(h, H.HitsIoError).state == H.Inactive
               case Gives(most) =>
                 if Room(h) == 0 then t.outcome == StreamEnd && t.event.None?
                 else if most == 0 || incoming == [] then t.outcome == WouldBlock && t.event.None?
                 else
                   && t.event == Some(H.Receives(incoming[..Min(most, Min(Room(h), |incoming|))]))
                   && t.outcome == (if H.Next(h, t.event.value).state == H.Inactive then Closed else Again)
  {
    MayFail(h);
    assert [] + incoming == incoming;
    hide H.HostOk, H.Next, H.Enabled, H.Fail;
    if answer.Gives? && Room(h) > 0 && answer.most > 0 && incoming != [] {
      var chunk := Chunk(h, incoming, answer.most);
      MayReceive(h, chunk);
      HostInvariant.NextOk(h, H.Receives(chunk));
      assert chunk + incoming[|chunk|..] == incoming;
    } else if answer.Fails? {
      HostInvariant.NextOk(h, H.HitsIoError);
    }
  }

  /** A stream that always gives something is read until there is nothing left or nothing to receive into. */
  lemma ReadingIsGreedy(h: H.Host, incoming: seq<byte>, answers: seq<Answer>)
    requires H.HostOk(h) && |answers| > |incoming|
    requires forall i | 0 <= i < |answers| :: answers[i].Gives? && answers[i].most > 0
    ensures var r := Reading(h, incoming, answers);
            || r.rest == [] || r.host.rx.None? || r.host.state == H.Inactive
            || (r.outcome == StreamEnd && Room(r.host) == 0)
  {
    ReadingStops(h, incoming, answers);
    hide H.HostOk, Reading, HostTheorems.Run;
    var r := Reading(h, incoming, answers);
    ReceivesCount(r.events, answers);
  }

  lemma {:induction false} ReceivesCount(events: seq<H.HostEvent>, answers: seq<Answer>)
    requires Received(events, answers) && (forall i | 0 <= i < |answers| :: answers[i].Gives?)
    ensures |events| <= |BytesIn(events)|
  {
    if events != [] {
      var rest := events[1..];
      forall i | 0 <= i < |rest| ensures rest[i] == events[i + 1] && answers[1..][i] == answers[i + 1] {
      }
      ReceivesCount(rest, answers[1..]);
    }
  }

  class HostConsole {
    const form: H.DrainForm
    const escape: Option<byte>
    var state: H.ConsoleState
    var rx: RpcPacket?
    var tx: RpcPacket?
    var localToStdout: seq<byte>
    var localToStdoutOffset: nat
    var localToStderr: seq<byte>
    var localToStderrOffset: nat
    var localEOF: bool
    var serial: nat
    var waitTimers: nat
    var watch: H.Watch
    ghost var log: H.HostLog

    ghost function Repr(): set<object>
      reads this
    {
      {this} + PacketRepr(rx) + PacketRepr(tx)
    }

    /** The two packets are intact and share nothing. */
    ghost predicate Intact()
      reads Repr()
    {
      PacketOk(rx) && PacketOk(tx) && PacketRepr(rx) !! PacketRepr(tx)
    }

    /** The object as a value of the machine. */
    ghost function View(): H.Host
      requires Intact()
      reads Repr()
    {
      H.Host(form, escape, state, RxView(rx), TxView(tx), localToStdout, localToStdoutOffset,
             localToStderr, localToStderrOffset, localEOF, serial, waitTimers, log)
    }

    /** Between callbacks the attached sources are those that the state calls for. */
    ghost predicate Valid()
      reads Repr()
    {
      Intact() && H.HostOk(View()) && watch == H.Wants(View())
    }

    constructor (form: H.DrainForm, escape: Option<byte>)
      ensures Intact() && fresh(Repr())
      ensures View() == H.Fresh(form, escape) && watch == H.Wants(View())
    {
      this.form, this.escape, state, rx, tx := form, escape, H.Inactive, null, null;
      localToStdout, localToStdoutOffset, localToStderr, localToStderrOffset := [], 0, [], 0;
      localEOF, serial, waitTimers := false, 0, 0;
      watch := H.Watch(false, false, false, false, false);
      log := H.NoLog;
    }

    /** gvir_sandbox_console_rpc_build_quit */
    method BuildQuit() returns (pkt: RpcPacket)
      modifies this`serial
      ensures fresh(pkt.Repr()) && pkt.Valid() && pkt.bufferOffset == 0
      ensures pkt.Contents() == Encode(QuitMessage(H.HeaderSerial(old(serial))))
      ensures serial == H.NextSerial(old(serial))
    {
      pkt := RpcPacket.BuildEmpty(Header(QUIT, DATA, STATUS_OK, serial % 0x1_0000_0000));
      serial := (serial + 1) % 0x1_0000_0000_0000_0000;
    }

    /** gvir_sandbox_console_rpc_build_stdin */
    method BuildStdin(data: seq<byte>) returns (pkt: RpcPacket?)
      modifies this`serial
      ensures pkt != null <==> |data| <= PAYLOAD_MAX
      ensures pkt != null ==> fresh(pkt.Repr()) && pkt.Valid() && pkt.bufferOffset == 0
                              && pkt.Contents() == Encode(StdinMessage(data, H.HeaderSerial(old(serial))))
      ensures serial == H.NextSerial(old(serial))
    {
      pkt := RpcPacket.BuildRaw(Header(STDIN, DATA, STATUS_OK, serial % 0x1_0000_0000), data);
      serial := (serial + 1) % 0x1_0000_0000_0000_0000;
    }

    // The cases of do_console_rpc_set_state.

    method StartWaiting()
      requires Intact()
      modifies this`state, this`rx, this`tx
      ensures Intact() && fresh(Repr() - old(Repr()))
      ensures View() == old(View()).(state := H.Waiting, tx := Some(Tx([WAIT], 0)), rx := Some(OneByte))
    {
      state := H.Waiting;
      tx := RpcPacket.BuildByte(WAIT);
      rx := RpcPacket.AwaitByte();
    }

    method StartSyncing()
      requires Intact()
      modifies this`state, this`tx
      ensures Intact() && fresh(Repr() - old(Repr()))
      ensures View() == old(View()).(state := H.Syncing, tx := Some(Tx([SYNC], 0)))
    {
      state := H.Syncing;
      tx := RpcPacket.BuildByte(SYNC);
    }

    method StartRunning()
      requires Intact()
      modifies this`state, this`rx
      ensures Intact() && fresh(Repr() - old(Repr()))
      ensures View() == old(View()).(state := H.Running, rx := Some(LengthWord))
    {
      state := H.Running;
      rx := new RpcPacket(true);
    }

    method StartStopping()
      requires Intact()
      modifies this`state, this`tx, this`log
      ensures Intact() && Repr() <= old(Repr())
      ensures View() == H.DropTx(old(View())).(state := H.Stopping)
    {
      HostInvariant.DropTxFields(View());
      hide H.DropTx;
      log := H.DropTx(View()).log;
      state := H.Stopping;
      tx := null;
    }

    method StartFinished()
      requires Intact() && state != H.Finished
      modifies this`state, this`tx, this`log, this`serial
      ensures Intact() && fresh(Repr() - old(Repr()))
      ensures View() == H.SetState(old(View()), H.Finished)
    {
      FinishedIs(View());
      ghost var dropped := H.DropTx(View()).log;
      ghost var quit := QuitMessage(H.HeaderSerial(serial));
      hide H.DropTx, H.SetState, Encode, EncodeI32;
      state := H.Finished;
      tx := BuildQuit();
      log := dropped.(garbled := dropped.cut, outbox := dropped.outbox + [quit]);
    }

    /** do_console_rpc_set_state */
    method SetState(next: H.ConsoleState)
      requires Intact()
      modifies this`state, this`rx, this`tx, this`serial, this`log
      ensures Intact() && fresh(Repr() - old(Repr()))
      ensures View() == H.SetState(old(View()), next) && state == next
    {
      hide Encode, EncodeI32, H.DropTx;
      if state == next {
        return;
      }
      match next {
        case Waiting => StartWaiting();
        case Syncing => StartSyncing();
        case Running => StartRunning();
        case Stopping => StartStopping();
        case Finished => StartFinished();
        case Inactive => state := H.Inactive;
      }
    }

    /** do_console_rpc_update_events */
    method UpdateEvents()
      requires Intact()
      modifies this`watch
      ensures Intact() && View() == old(View()) && watch == H.Wants(View())
      ensures watch.stdin <==> state == H.Running && tx == null && !localEOF
      ensures watch.stdout <==> state in {H.Running, H.Stopping} && localToStdout != []
      ensures watch.stderr <==> state in {H.Running, H.Stopping} && localToStderr != []
      ensures watch.readable <==> state in {H.Waiting, H.Syncing, H.Running, H.Stopping} && rx != null
      ensures watch.writable <==> state != H.Inactive && tx != null
    {
      var readable, writable, needStdin, needStdout, needStderr := false, false, false, false, false;
      if state == H.Running {
        needStdin := tx == null && !localEOF;
      }
      if state == H.Running || state == H.Stopping {
        needStdout := |localToStdout| > 0;
        needStderr := |localToStderr| > 0;
      }
      if state in {H.Running, H.Stopping, H.Waiting, H.Syncing} {
        readable := rx != null;
      }
      if state in {H.Running, H.Stopping, H.Waiting, H.Syncing, H.Finished} {
        writable := tx != null;
      }
      watch := H.Watch(readable, writable, needStdin, needStdout, needStderr);
    }

    /** gvir_sandbox_console_rpc_detach */
    method Detach()
      requires Intact() && (state == H.Inactive ==> watch == H.Wants(View()))
      modifies this
      ensures Intact() && Repr() <= old(Repr())
      ensures View() == H.Detach(old(View())) && watch == H.Wants(View()) && state == H.Inactive
    {
      DetachIs(View());
      hide H.DropTx, H.Detach;
      if state == H.Inactive {
        return;
      }
      log := H.DropTx(View()).log;
      watch := H.Watch(false, false, false, false, false);
      localToStdout, localToStdoutOffset := [], 0;
      localToStderr, localToStderrOffset := [], 0;
      tx, rx := null, null;
      state := H.Inactive;
    }

    /** do_console_rpc_close */
    method Close(error: bool)
      requires Intact() && (state == H.Inactive ==> watch == H.Wants(View()))
      modifies this
      ensures Intact() && Repr() <= old(Repr())
      ensures View() == H.Close(old(View()), error) && watch == H.Wants(View()) && state == H.Inactive
    {
      hide H.Detach;
      Detach();
      log := log.(closed := log.closed + [error]);
    }

    method CloseFailed(fault: Fault)
      requires Intact() && (state == H.Inactive ==> watch == H.Wants(View()))
      modifies this
      ensures Intact() && Repr() <= old(Repr())
      ensures View() == H.Fail(old(View()), fault) && watch == H.Wants(View()) && state == H.Inactive
    {
      hide H.Close;
      log := log.(fault := fault);
      Close(true);
    }

    /** do_console_rpc_dispatch_proc.  An error changes nothing here; the caller closes. */
    method DispatchProc(pkt: RpcPacket) returns (r: Result<(), Fault>)
      requires Intact() && pkt.Valid() && pkt.bufferLength >= LEN_MAX && pkt.Repr() !! Repr()
      modifies this`state, this`rx, this`tx, this`log, this`serial, pkt`bufferOffset, pkt`header
      modifies this`localToStdout, this`localToStdoutOffset, this`localToStderr, this`localToStderrOffset
      ensures Intact() && fresh(Repr() - old(Repr()))
      ensures r.Ok? ==> View() == H.Dispatch(old(View()), old(pkt.Contents()))
      ensures r.Ok? && old(state) != H.Inactive ==> state != H.Inactive
      ensures r.Err? ==> View() == old(View())
                         && H.Dispatch(old(View()), old(pkt.Contents())) == H.Fail(old(View()), r.error)
    {
      r := pkt.DecodeHeader();
      if r.Err? {
        return;
      }
      ghost var m := DecodeFrame(pkt.Contents()).value;
      r := DispatchMessage(pkt, m);
    }

    /** Its case for output: the payload joins the queue. */
    method QueueStdout(pkt: RpcPacket, ghost m: Message)
      requires Intact() && pkt.Valid()
      requires pkt.buffer[pkt.bufferOffset..pkt.bufferLength] == m.payload
      modifies this`localToStdout, this`localToStdoutOffset, this`log
      ensures Intact()
      ensures View() == old(View()).(out := old(localToStdout) + m.payload,
                                     outOffset := if old(localToStdout) == [] then 0 else old(localToStdoutOffset),
                                     log := old(log).(received := old(log).received + [m]))
    {
      if localToStdout == [] {
        localToStdoutOffset := 0;
      }
      localToStdout := localToStdout + pkt.buffer[pkt.bufferOffset..pkt.bufferLength];
      log := log.(received := log.received + [m]);
    }

    method QueueStderr(pkt: RpcPacket, ghost m: Message)
      requires Intact() && pkt.Valid()
      requires pkt.buffer[pkt.bufferOffset..pkt.bufferLength] == m.payload
      modifies this`localToStderr, this`localToStderrOffset, this`log
      ensures Intact()
      ensures View() == old(View()).(err := old(localToStderr) + m.payload,
                                     errOffset := if old(localToStderr) == [] then 0 else old(localToStderrOffset),
                                     log := old(log).(received := old(log).received + [m]))
    {
      if localToStderr == [] {
        localToStderrOffset := 0;
      }
      localToStderr := localToStderr + pkt.buffer[pkt.bufferOffset..pkt.bufferLength];
      log := log.(received := log.received + [m]);
    }

    /** Its case for the exit message: first the signal, and then the end. */
    method SignalExited(pkt: RpcPacket, ghost m: Message) returns (ok: bool)
      requires Intact() && pkt.Valid() && pkt.Repr() !! Repr()
      requires pkt.buffer[pkt.bufferOffset..pkt.bufferLength] == m.payload
      modifies this`log, pkt`bufferOffset
      ensures Intact()
      ensures ok <==> |m.payload| >= 4
      ensures View() == if ok then Told(old(View()), m) else old(View())
    {
      hide DecodeI32;
      var status := pkt.DecodePayloadExit();
      if status.None? {
        return false;
      }
      log := log.(received := log.received + [m], exited := log.exited + [status.value]);
      return true;
    }

    method DispatchExit(pkt: RpcPacket, ghost m: Message) returns (ok: bool)
      requires Intact() && pkt.Valid() && pkt.Repr() !! Repr()
      requires pkt.buffer[pkt.bufferOffset..pkt.bufferLength] == m.payload
      modifies this`state, this`rx, this`tx, this`log, this`serial, pkt`bufferOffset
      ensures Intact() && fresh(Repr() - old(Repr()))
      ensures ok <==> |m.payload| >= 4
      ensures View() == if ok then AfterExit(old(View()), m) else old(View())
      ensures ok ==> state != H.Inactive
    {
      hide H.SetState, Told;
      ok := SignalExited(pkt, m);
      if ok {
        ToldQueues(old(View()), m);
        SetState(if |localToStdout| == 0 && |localToStderr| == 0 then H.Finished else H.Stopping);
      }
    }

    /** The switch on the procedure. */
    method DispatchMessage(pkt: RpcPacket, ghost m: Message) returns (r: Result<(), Fault>)
      requires Intact() && pkt.Valid() && pkt.Repr() !! Repr()
      requires pkt.header == m.header && pkt.buffer[pkt.bufferOffset..pkt.bufferLength] == m.payload
      modifies this`state, this`rx, this`tx, this`log, this`serial, pkt`bufferOffset
      modifies this`localToStdout, this`localToStdoutOffset, this`localToStderr, this`localToStderrOffset
      ensures Intact() && fresh(Repr() - old(Repr()))
      ensures r.Ok? ==> View() == H.Deliver(old(View()), m)
      ensures r.Ok? && old(state) != H.Inactive ==> state != H.Inactive
      ensures r.Err? ==> View() == old(View()) && H.Deliver(old(View()), m) == H.Fail(old(View()), r.error)
    {
      DeliverIs(View(), m);
      hide H.Deliver, H.Fail, AfterExit;
      if pkt.header.status != STATUS_OK {
        return Err(BadStatus);
      }
      r := Ok(());
      if pkt.header.proc == STDOUT {
        QueueStdout(pkt, m);
      } else if pkt.header.proc == STDERR {
        QueueStderr(pkt, m);
      } else if pkt.header.proc == EXIT {
        var ok := DispatchExit(pkt, m);
        if !ok {
          r := Err(BadExitPayload);
        }
      } else {
        r := Err(BadProc);
      }
    }

    // The cases of do_console_rpc_process_packet_rx.

    method HandshakeByte(pkt: RpcPacket)
      requires Intact() && state == H.Waiting && pkt.Valid() && pkt.bufferLength > 0
      modifies this
      ensures Intact() && fresh(Repr() - old(Repr())) && watch == old(watch)
      ensures View() == H.ProcessRx(old(View()), pkt.Contents()) && state != H.Inactive
    {
      hide H.SetState;
      assert pkt.Contents()[0] == pkt.buffer[0];
      if pkt.buffer[0] == SYNC {
        SetState(H.Syncing);
      } else {
        rx := RpcPacket.AwaitByte();
      }
    }

    method LengthWordDone(pkt: RpcPacket) returns (r: Result<(), Fault>)
      requires Intact() && state == H.Running && pkt.Valid() && pkt.bufferLength == LEN_MAX && pkt.Repr() !! Repr()
      modifies this`rx, pkt
      ensures Intact() && fresh(Repr() - old(Repr()))
      ensures r.Ok? ==> View() == H.ProcessRx(old(View()), old(pkt.Contents()))
      ensures r.Ok? && old(state) != H.Inactive ==> state != H.Inactive
      ensures r.Err? ==> View() == old(View())
                         && H.ProcessRx(old(View()), old(pkt.Contents())) == H.Fail(old(View()), r.error)
    {
      hide H.Fail, H.Dispatch, Protocol.DecodeLength;
      assert pkt.Contents() == pkt.buffer[..LEN_MAX];
      r := pkt.DecodeLength();
      if r.Ok? {
        rx := new RpcPacket(true);
        rx.CopyFrom(pkt);
        assert rx.buffer[..LEN_MAX] == rx.buffer[..][..LEN_MAX] == pkt.buffer[..][..LEN_MAX] == pkt.buffer[..LEN_MAX];
      }
    }

    method FrameDone(pkt: RpcPacket) returns (r: Result<(), Fault>)
      requires Intact() && state == H.Running && pkt.Valid() && pkt.bufferLength > LEN_MAX && pkt.Repr() !! Repr()
      modifies this, pkt
      ensures Intact() && fresh(Repr() - old(Repr())) && watch == old(watch)
      ensures r.Ok? ==> View() == H.ProcessRx(old(View()), old(pkt.Contents()))
      ensures r.Ok? && old(state) != H.Inactive ==> state != H.Inactive
      ensures r.Err? ==> View() == old(View())
                         && H.ProcessRx(old(View()), old(pkt.Contents())) == H.Fail(old(View()), r.error)
    {
      FrameRxIs(View(), pkt.Contents());
      hide H.Fail, H.Dispatch, H.ProcessRx, HostInvariant.Rearm;
      r := DispatchProc(pkt);
      if r.Err? {
        FailedIs(View(), r.error);
        return;
      }
      RearmRx();
    }

    method RearmRx()
      requires Intact()
      modifies this`rx
      ensures Intact() && fresh(Repr() - old(Repr()))
      ensures View() == HostInvariant.Rearm(old(View()))
    {
      if state == H.Running && |localToStdout| < H.MAX_QUEUED_DATA && |localToStderr| < H.MAX_QUEUED_DATA {
        rx := new RpcPacket(true);
      }
    }

    /** do_console_rpc_process_packet_rx.  An error changes nothing here; the caller closes. */
    method ProcessPacketRx(pkt: RpcPacket) returns (r: Result<(), Fault>)
      requires Intact() && pkt.Valid() && pkt.Repr() !! Repr()
      requires pkt.bufferLength > 0 && (state == H.Running ==> pkt.bufferLength >= LEN_MAX)
      modifies this, pkt
      ensures Intact() && fresh(Repr() - old(Repr())) && watch == old(watch)
      ensures r.Ok? ==> View() == H.ProcessRx(old(View()), old(pkt.Contents()))
      ensures r.Ok? && old(state) != H.Inactive ==> state != H.Inactive
      ensures r.Err? ==> View() == old(View())
                         && H.ProcessRx(old(View()), old(pkt.Contents())) == H.Fail(old(View()), r.error)
    {
      r := Ok(());
      match state {
        case Waiting =>
          hide H.ProcessRx;
          HandshakeByte(pkt);
        case Running =>
          hide H.ProcessRx;
          if pkt.bufferLength == LEN_MAX {
            r := LengthWordDone(pkt);
          } else {
            r := FrameDone(pkt);
          }
        case _ =>
          r := Err(UnexpectedRx);
      }
    }

    /** do_console_rpc_process_packet_tx */
    method ProcessPacketTx(pkt: RpcPacket) returns (r: Result<(), Fault>)
      requires Intact() && pkt.Valid() && pkt.bufferLength > 0 && (state == H.Inactive ==> watch == H.Wants(View()))
      modifies this
      ensures Intact() && fresh(Repr() - old(Repr()))
      ensures state == H.Inactive ==> watch == H.Wants(View())
      ensures r.Ok? ==> View() == H.ProcessTx(old(View()), pkt.Contents())
      ensures r.Err? ==> View() == old(View())
                         && H.ProcessTx(old(View()), pkt.Contents()) == H.Fail(old(View()), r.error)
    {
      hide H.Fail, H.SetState, H.Close;
      assert pkt.Contents()[0] == pkt.buffer[0];
      r := Ok(());
      match state {
        case Waiting =>
          waitTimers := waitTimers + 1;
        case Syncing =>
          if pkt.buffer[0] == WAIT {
            tx := RpcPacket.BuildByte(SYNC);
            log := log.(resent := true);
          } else {
            HostTheorems.SetStateRank(View(), H.Running);
            SetState(H.Running);
          }
        case Finished => Close(false);
        case Running =>
        case Stopping =>
        case Inactive => r := Err(UnexpectedTx);
      }
    }

    // The callbacks.

    /** gvir_sandbox_console_rpc_attach, for a console that opens; it says whether the console was free. */
    method Attach() returns (ok: bool)
      requires Intact() && watch == H.Wants(View())
      modifies this
      ensures Intact() && fresh(Repr() - old(Repr()))
      ensures ok <==> old(state) == H.Inactive
      ensures View() == H.Attach(old(View())) && watch == H.Wants(View())
      ensures old(View()) == H.Fresh(form, escape) ==> Valid()
    {
      HostInvariant.AttachOk(form, escape);
      hide H.SetState, H.HostOk, H.Fresh;
      ok := state == H.Inactive;
      if ok {
        SetState(H.Waiting);
        UpdateEvents();
      }
    }

    /** A read or a write failed. */
    method IoFailed()
      requires Valid() && state != H.Inactive
      modifies this
      ensures Valid() && fresh(Repr() - old(Repr()))
      ensures View() == H.Fail(old(View()), IoFault)
    {
      HostInvariant.FailOk(View(), IoFault);
      hide H.HostOk, H.Fail;
      CloseFailed(IoFault);
    }

    /** do_console_handshake_wait_tx_queue */
    method WaitTimer()
      requires Valid() && waitTimers > 0
      modifies this
      ensures Valid() && fresh(Repr() - old(Repr()))
      ensures View() == H.TimerFired(old(View()))
    {
      HostInvariant.TimerOk(View());
      hide H.HostOk, H.TimerFired;
      QueueWait();
      UpdateEvents();
    }

    method QueueWait()
      requires Intact() && waitTimers > 0
      modifies this`waitTimers, this`tx
      ensures Intact() && fresh(Repr() - old(Repr()))
      ensures View() == H.TimerFired(old(View()))
    {
      waitTimers := waitTimers - 1;
      if state != H.Waiting {
        return;
      }
      if tx != null {
        return;
      }
      tx := RpcPacket.BuildByte(WAIT);
    }

    /** do_console_rpc_stdin_read, whose read returned `got`, or failed. */
    method StdinRead(got: Option<seq<byte>>)
      requires Valid() && watch.stdin && (got.Some? ==> |got.value| <= H.MAX_IO)
      modifies this
      ensures Valid() && fresh(Repr() - old(Repr()))
      ensures View() == if got.None? then H.Fail(old(View()), IoFault) else H.StdinRead(old(View()), got.value)
    {
      hide H.HostOk, H.Fail, H.StdinRead;
      if got.None? {
        IoFailed();
      } else {
        HostInvariant.StdinReadOk(View(), got.value);
        StdinGot(got.value);
      }
      UpdateEvents();
    }

    method StdinGot(data: seq<byte>)
      requires Intact() && |data| <= H.MAX_IO && (state == H.Inactive ==> watch == H.Wants(View()))
      modifies this
      ensures Intact() && fresh(Repr() - old(Repr()))
      ensures View() == H.StdinRead(old(View()), data)
    {
      hide H.Close;
      if data == [] {
        localEOF := true;
      } else if escape == Some(data[0]) {
        Close(false);
        return;
      }
      SendStdin(data);
    }

    method SendStdin(data: seq<byte>)
      requires Intact() && |data| <= H.MAX_IO
      modifies this`tx, this`serial, this`log
      ensures Intact() && fresh(Repr() - old(Repr()))
      ensures View() == H.Post(old(View()).(log := old(log).(stdinRead := old(log).stdinRead + data)),
                               StdinMessage(data, H.HeaderSerial(old(serial))))
    {
      ghost var message := StdinMessage(data, H.HeaderSerial(serial));
      hide Encode, EncodeI32;
      tx := BuildStdin(data);
      log := log.(stdinRead := log.stdinRead + data, outbox := log.outbox + [message]);
    }

    /** do_console_rpc_stdout_write, whose write took `took` bytes, or failed. */
    method StdoutWrite(took: Option<nat>)
      requires Valid() && watch.stdout && (took.Some? ==> localToStdoutOffset + took.value <= |localToStdout|)
      modifies this
      ensures Valid() && fresh(Repr() - old(Repr()))
      ensures View() == if took.None? then H.Fail(old(View()), IoFault) else H.StdoutWrite(old(View()), took.value)
    {
      hide H.HostOk, H.Fail, H.StdoutWrite;
      if took.None? {
        IoFailed();
        return;
      }
      HostInvariant.StdoutWriteOk(View(), took.value);
      StdoutTook(took.value);
      UpdateEvents();
    }

    method StdoutTook(n: nat)
      requires Intact() && localToStdoutOffset + n <= |localToStdout|
      modifies this
      ensures Intact() && fresh(Repr() - old(Repr())) && watch == old(watch)
      ensures View() == H.StdoutWrite(old(View()), n)
    {
      StdoutIs(View(), n);
      hide H.Drained, H.StdoutWrite, StdoutTaken;
      StdoutMoved(n);
      if localToStdoutOffset == |localToStdout| {
        StdoutEmptied();
      }
    }

    method StdoutMoved(n: nat)
      requires Intact() && localToStdoutOffset + n <= |localToStdout|
      modifies this`localToStdoutOffset, this`log
      ensures Intact()
      ensures View() == StdoutTaken(old(View()), n)
    {
      ghost var from := localToStdoutOffset;
      localToStdoutOffset := localToStdoutOffset + n;
      log := log.(stdoutWritten := log.stdoutWritten + localToStdout[from..localToStdoutOffset]);
    }

    method StdoutEmptied()
      requires Intact()
      modifies this
      ensures Intact() && fresh(Repr() - old(Repr())) && watch == old(watch)
      ensures View() == H.Drained(old(View()).(out := [], outOffset := 0), old(localToStderr))
    {
      hide H.Drained;
      localToStdout, localToStdoutOffset := [], 0;
      QueueDrained(localToStderr);
    }

    /** How much of the stderr queue is offered to the write. */
    function Offered(): int
      reads this
    {
      if form == H.AsMeant then |localToStderr| - localToStderrOffset else localToStderrOffset
    }

    /** do_console_rpc_stderr_write, whose write took `took` bytes of what was offered, or failed. */
    method StderrWrite(took: Option<nat>)
      requires Valid() && watch.stderr && (took.Some? ==> took.value <= Offered())
      requires localToStderrOffset <= |localToStderr|
      modifies this
      ensures Valid() && fresh(Repr() - old(Repr()))
      ensures View() == if took.None? then H.Fail(old(View()), IoFault) else H.StderrWrite(old(View()), took.value)
    {
      hide H.HostOk, H.Fail, H.StderrWrite;
      if took.None? {
        IoFailed();
        return;
      }
      HostInvariant.StderrWriteOk(View(), took.value);
      StderrTook(took.value);
      UpdateEvents();
    }

    method StderrTook(n: nat)
      requires Intact() && localToStderrOffset <= |localToStderr| && n <= Offered()
      modifies this
      ensures Intact() && fresh(Repr() - old(Repr())) && watch == old(watch)
      ensures View() == H.StderrWrite(old(View()), n)
    {
      StderrIs(View(), n);
      hide H.Drained, H.StderrWrite, StderrTaken;
      StderrMoved(n);
      if localToStderrOffset == |localToStderr| {
        StderrEmptied();
      }
    }

    method StderrEmptied()
      requires Intact()
      modifies this
      ensures Intact() && fresh(Repr() - old(Repr())) && watch == old(watch)
      ensures View() == H.Drained(old(View()).(err := [], errOffset := 0), old(localToStdout))
    {
      hide H.Drained;
      localToStderr, localToStderrOffset := [], 0;
      QueueDrained(localToStdout);
    }

    method StderrMoved(n: nat)
      requires Intact() && localToStderrOffset <= |localToStderr| && n <= Offered()
      modifies this`localToStderrOffset, this`log
      ensures Intact()
      ensures View() == StderrTaken(old(View()), n)
    {
      ghost var from := if form == H.AsMeant then localToStderrOffset else 0;
      log := log.(stderrWritten := log.stderrWritten + localToStderr[from..from + n]);
      localToStderrOffset := localToStderrOffset + n;
    }

    /** The common part of the two: one queue is empty, and this is the other one. */
    method QueueDrained(other: seq<byte>)
      requires Intact()
      modifies this`state, this`rx, this`tx, this`serial, this`log
      ensures Intact() && fresh(Repr() - old(Repr()))
      ensures View() == H.Drained(old(View()), other)
    {
      hide H.SetState;
      if state == H.Running && rx == null && |other| < H.MAX_QUEUED_DATA {
        rx := new RpcPacket(true);
      }
      if state == H.Stopping && |other| == 0 {
        SetState(H.Finished);
      }
    }

    /** What follows a receive that returned these bytes. */
    method ReceiveChunk(chunk: seq<byte>) returns (r: Result<(), Fault>)
      requires Intact() && H.HostOk(View()) && H.Enabled(View(), H.Receives(chunk))
      modifies Repr()
      ensures Intact() && fresh(Repr() - old(Repr())) && watch == old(watch)
      ensures r.Ok? ==> View() == H.Receive(old(View()), chunk)
      ensures r.Ok? && old(state) != H.Inactive ==> state != H.Inactive
      ensures r.Err? ==> H.Receive(old(View()), chunk) == H.Fail(View(), r.error) && state == old(state)
    {
      hide H.HostOk, H.ProcessRx, H.Fail;
      assert chunk != [] && rx != null && rx.bufferOffset + |chunk| <= rx.bufferLength;
      ghost var data := rx.buffer[..rx.bufferOffset] + chunk;
      Store(chunk);
      r := Ok(());
      if rx.bufferOffset == rx.bufferLength {
        var pkt := rx;
        rx := null;
        assert pkt.Contents() == data;
        r := ProcessPacketRx(pkt);
      }
    }

    /** gvir_stream_receive into the packet. */
    method Store(chunk: seq<byte>)
      requires Intact() && rx != null && rx.bufferOffset + |chunk| <= rx.bufferLength
      modifies rx`bufferOffset, rx.buffer
      ensures Intact() && rx.buffer[..rx.bufferOffset] == old(rx.buffer[..rx.bufferOffset]) + chunk
      ensures rx.bufferOffset == old(rx.bufferOffset) + |chunk|
      ensures View() == old(View()).(rx := Some(Rx(old(rx.buffer[..rx.bufferOffset]) + chunk, old(rx.bufferLength))))
    {
      rx.Copy(rx.bufferOffset, chunk);
      rx.bufferOffset := rx.bufferOffset + |chunk|;
      assert rx.buffer[..rx.bufferOffset] == rx.buffer[..][..rx.bufferOffset];
    }

    /** What follows a send that took n bytes. */
    method SentSome(n: nat) returns (r: Result<(), Fault>)
      requires Intact() && state != H.Inactive
      requires tx != null && tx.bufferOffset < tx.bufferLength && tx.bufferOffset + n <= tx.bufferLength
      modifies Repr()
      ensures Intact() && fresh(Repr() - old(Repr()))
      ensures state == H.Inactive ==> watch == H.Wants(View())
      ensures r.Ok? ==> View() == H.Send(old(View()), n)
      ensures r.Err? ==> H.Send(old(View()), n) == H.Fail(View(), r.error) && state == old(state)
    {
      hide H.ProcessTx, H.Fail;
      tx.bufferOffset := tx.bufferOffset + n;
      r := Ok(());
      if tx.bufferOffset == tx.bufferLength {
        var pkt := tx;
        tx := null;
        r := ProcessPacketTx(pkt);
      }
    }

    method IoFailsLive()
      requires Live() && state != H.Inactive
      modifies this
      ensures Live() && fresh(Repr() - old(Repr()))
      ensures View() == H.Fail(old(View()), IoFault)
    {
      HostInvariant.FailOk(View(), IoFault);
      hide H.HostOk, H.Fail, H.Wants;
      CloseFailed(IoFault);
    }

    /** One turn of the receive loop of do_console_rpc_stream_readwrite, with what the receive returns. */
    method Turn(incoming: seq<byte>, answer: Answer)
      returns (outcome: Outcome, rest: seq<byte>, ghost event: Option<H.HostEvent>)
      requires Live() && rx != null
      modifies Repr()
      ensures Live() && fresh(Repr() - old(Repr()))
      ensures Happens(old(View()), event, View())
      ensures TurnOf(old(View()), incoming, answer) == TurnResult(outcome, event, rest)
      ensures incoming == BytesOf(event) + rest
      ensures SentBy(old(View()), event) == []
    {
      TurnStops(View(), incoming, answer);
      MayFail(View());
      hide H.HostOk, H.Next, H.Fail, H.Wants, H.Enabled, H.Receive, TurnOf;
      rest, event := incoming, None;
      match answer {
        case Blocks => outcome := WouldBlock;
        case Ends => outcome := StreamEnd;
        case Fails =>
          outcome, event := Closed, Some(H.HitsIoError);
          IoFailsLive();
        case Gives(most) =>
          var room := rx.bufferLength - rx.bufferOffset;
          var ret := Min(most, Min(room, |incoming|));
          if room == 0 {
            outcome := StreamEnd;
          } else if ret == 0 {
            outcome := WouldBlock;
          } else {
            event := Some(H.Receives(incoming[..ret]));
            outcome, rest := Receive(incoming, ret);
          }
      }
    }

    /** A receive that returned so many bytes. */
    method Receive(incoming: seq<byte>, ret: nat) returns (outcome: Outcome, rest: seq<byte>)
      requires Live() && rx != null && 0 < ret <= |incoming| && ret <= rx.bufferLength - rx.bufferOffset
      modifies Repr()
      ensures Live() && fresh(Repr() - old(Repr()))
      ensures H.Enabled(old(View()), H.Receives(incoming[..ret]))
      ensures View() == H.Next(old(View()), H.Receives(incoming[..ret])) && rest == incoming[ret..]
      ensures outcome == if state == H.Inactive then Closed else Again
    {
      MayReceive(View(), incoming[..ret]);
      MayFail(View());
      hide H.HostOk, H.Next, H.Fail, H.Wants, H.Enabled, H.Receive;
      HostInvariant.NextOk(View(), H.Receives(incoming[..ret]));
      rest := incoming[ret..];
      var r := ReceiveChunk(incoming[..ret]);
      outcome := if r.Ok? then Again else Closed;
      if r.Err? {
        CloseFailed(r.error);
      }
    }

    /** Enough of Valid to go on with a callback. */
    ghost predicate Live()
      reads Repr()
    {
      Intact() && H.HostOk(View()) && (state == H.Inactive ==> watch == H.Wants(View()))
    }

    /** And a run has led here. */
    ghost predicate LiveAfter(start: H.Host, events: seq<H.HostEvent>, taken: seq<byte>, sent: seq<byte>)
      reads Repr()
    {
      Live() && Ran(start, events, View(), taken, sent)
    }

    /** A turn, as the next part of a run. */
    method TurnOfRun(incoming: seq<byte>, answer: Answer, ghost start: H.Host, ghost before: seq<H.HostEvent>,
                     ghost had: seq<byte>)
      returns (outcome: Outcome, rest: seq<byte>, ghost taken: seq<byte>, ghost events: seq<H.HostEvent>)
      requires LiveAfter(start, before, had, []) && rx != null
      modifies Repr()
      ensures LiveAfter(start, events, taken, []) && fresh(Repr() - old(Repr()))
      ensures taken + rest == had + incoming
      ensures var t := TurnOf(old(View()), incoming, answer);
              && outcome == t.outcome && rest == t.rest && events == before + EventsOf(t.event)
              && View() == AfterEvent(old(View()), t.event)
    {
      hide H.HostOk, H.Wants, Ran, BytesOf, EventsOf, SentBy, TurnOf, H.Enabled, H.Next;
      ghost var event;
      ghost var h := View();
      outcome, rest, event := Turn(incoming, answer);
      RanThen(start, before, h, had, [], event, View());
      assert [] + SentBy(h, event) == [];
      Associative(had, BytesOf(event), rest);
      events, taken := before + EventsOf(event), had + BytesOf(event);
    }

    /** All turns of that loop. */
    method ReadAll(incoming: seq<byte>, answers: seq<Answer>, ghost start: H.Host)
      returns (outcome: Outcome, rest: seq<byte>, ghost taken: seq<byte>, ghost events: seq<H.HostEvent>)
      requires LiveAfter(start, [], [], []) && View() == start
      modifies Repr()
      ensures LiveAfter(start, events, taken, []) && fresh(Repr() - old(Repr()))
      ensures taken + rest == incoming
      ensures Reading(start, incoming, answers) == ReadPass(View(), events, rest, outcome)
    {
      hide H.HostOk, H.Wants, Ran, TurnOf, AfterEvent, EventsOf, Behind;
      outcome, rest, taken, events := Again, incoming, [], [];
      var i := 0;
      BehindTwice([], [], Reading(start, incoming, answers));
      while rx != null && outcome == Again && i < |answers|
        invariant LiveAfter(start, events, taken, []) && fresh(Repr() - old(Repr()))
        invariant taken + rest == incoming && i <= |answers|
        invariant Reading(start, incoming, answers) ==
                  if outcome == Again then Behind(events, Reading(View(), rest, answers[i..]))
                  else ReadPass(View(), events, rest, outcome)
        decreases |answers| - i
      {
        ghost var h, had, before := View(), rest, events;
        outcome, rest, taken, events := TurnOfRun(rest, answers[i], start, events, taken);
        ReadingTurn(h, had, answers[i..], before);
        assert answers[i..][1..] == answers[i + 1..];
        i := i + 1;
      }
      if outcome == Again {
        assert Behind(events, ReadPass(View(), [], rest, Again)) == ReadPass(View(), events, rest, Again) by {
          BehindNone(events, View(), rest);
        }
      }
    }

    method ReadSome(readable: bool, incoming: seq<byte>, answers: seq<Answer>, ghost start: H.Host)
      returns (go: bool, rest: seq<byte>, ghost taken: seq<byte>, ghost events: seq<H.HostEvent>)
      requires LiveAfter(start, [], [], []) && View() == start
      modifies Repr()
      ensures LiveAfter(start, events, taken, []) && fresh(Repr() - old(Repr()))
      ensures taken + rest == incoming
      ensures var pass := ReadPart(start, readable, incoming, answers);
              && pass.host == View() && pass.events == events && pass.rest == rest
              && go == (pass.outcome in {Again, WouldBlock})
    {
      hide LiveAfter, Reading;
      go, rest, taken, events := true, incoming, [], [];
      if readable {
        var outcome;
        outcome, rest, taken, events := ReadAll(incoming, answers, start);
        go := outcome != StreamEnd && outcome != Closed;
      }
    }

    lemma MaySendNow(n: nat)
      requires Live() && tx != null && tx.bufferOffset + n <= tx.bufferLength
      ensures state != H.Inactive && Happens(View(), Some(H.Sends(n)), H.Send(View(), n))
      ensures n <= |TxRest(View().tx)| && SentBy(View(), Some(H.Sends(n))) == TxRest(View().tx)[..n]
    {
      MaySend(View(), n);
      hide H.HostOk, H.Wants, Happens, SentBy;
    }

    /** The first n bytes that tx has to send. */
    method Offer(n: nat) returns (bytes: seq<byte>)
      requires Intact() && tx != null && tx.bufferOffset + n <= tx.bufferLength
      ensures n <= |TxRest(View().tx)| && bytes == TxRest(View().tx)[..n]
    {
      bytes := tx.buffer[tx.bufferOffset..tx.bufferOffset + n];
      ghost var wire := tx.Contents();
      assert bytes == wire[tx.bufferOffset..][..n];
    }

    /** A send that took n bytes. */
    method WriteBytes(n: nat)
      requires Intact() && Live() && tx != null && tx.bufferOffset + n <= tx.bufferLength
      modifies Repr()
      ensures Intact() && Live() && fresh(Repr() - old(Repr()))
      ensures H.Enabled(old(View()), H.Sends(n)) && View() == H.Send(old(View()), n)
    {
      MaySend(View(), n);
      hide H.HostOk, H.Fail, H.Wants, H.Send, H.Enabled;
      var r := SentSome(n);
      if r.Err? {
        CloseFailed(r.error);
      }
    }

    /** A send that failed. */
    method WriteFailed()
      requires Intact() && Live() && tx != null
      modifies Repr()
      ensures Intact() && Live() && fresh(Repr() - old(Repr()))
      ensures Happens(old(View()), Some(H.HitsIoError), View())
    {
      MaySendNow(0);
      FailHappens(View());
      hide Live, H.Fail, Happens;
      IoFailsLive();
    }

    method WriteTook(n: nat) returns (sent: seq<byte>)
      requires Intact() && Live() && tx != null && tx.bufferOffset + n <= tx.bufferLength
      modifies Repr()
      ensures Intact() && Live() && fresh(Repr() - old(Repr()))
      ensures Happens(old(View()), Some(H.Sends(n)), View()) && sent == SentBy(old(View()), Some(H.Sends(n)))
    {
      MaySendNow(n);
      hide Live, H.Send, H.Enabled, Happens, SentBy, TxRest;
      sent := Offer(n);
      WriteBytes(n);
    }

    /** The part of do_console_rpc_stream_readwrite that writes, with what the send returns. */
    method WriteOnce(sending: Sending) returns (sent: seq<byte>)
      requires Intact() && Live() && tx != null
      modifies Repr()
      ensures Intact() && Live() && fresh(Repr() - old(Repr()))
      ensures var event := SendEvent(old(View()), sending);
              Happens(old(View()), Some(event), View()) && sent == SentBy(old(View()), Some(event))
      ensures sent == SendBytes(old(View()), sending)
    {
      MaySendNow(0);
      hide Live, Happens;
      assert |TxRest(View().tx)| == tx.bufferLength - tx.bufferOffset;
      match sending {
        case Refuses =>
          WriteFailed();
          sent := [];
        case Takes(most) =>
          var ret := Min(most, tx.bufferLength - tx.bufferOffset);
          MaySendNow(ret);
          hide SentBy;
          sent := WriteTook(ret);
      }
    }

    method WriteSome(go: bool, sending: Sending, ghost start: H.Host, ghost before: seq<H.HostEvent>,
                     ghost taken: seq<byte>)
      returns (sent: seq<byte>, ghost events: seq<H.HostEvent>)
      requires LiveAfter(start, before, taken, [])
      modifies Repr()
      ensures LiveAfter(start, events, taken, sent) && fresh(Repr() - old(Repr()))
      ensures var h := old(View());
              && events == before + (if go && h.tx.Some? then [SendEvent(h, sending)] else [])
              && sent == if go && h.tx.Some? then SendBytes(h, sending) else []
    {
      hide H.HostOk, H.Wants, Ran, Happens, SentBy, SendEvent, SendBytes;
      sent, events := [], before;
      if go && tx != null {
        ghost var h := View();
        ghost var event := SendEvent(h, sending);
        sent := WriteOnce(sending);
        RanThen(start, before, h, taken, [], Some(event), View());
        events := before + [event];
        SendTakesNothing(h, sending);
        assert taken + [] == taken && [] + sent == sent;
      }
    }

    /**
      * do_console_rpc_stream_readwrite, on a stream from which `incoming` can be
      * read and which answers as given: the receive loop, and then, unless it
      * found the end of the stream or closed the console, one send of what tx
      * holds by then.  It is a run of the machine's events, with what it takes off
      * the stream and what it puts there.
      */
    method StreamReadWrite(readable: bool, writable: bool, incoming: seq<byte>, answers: seq<Answer>, sending: Sending)
      returns (rest: seq<byte>, sent: seq<byte>, ghost taken: seq<byte>, ghost events: seq<H.HostEvent>)
      requires Valid() && (readable ==> watch.readable) && (writable ==> watch.writable)
      modifies Repr()
      ensures Valid() && fresh(Repr() - old(Repr()))
      ensures Ran(old(View()), events, View(), taken, sent) && incoming == taken + rest
      ensures var pass := ReadPart(old(View()), readable, incoming, answers);
              && rest == pass.rest
              && events == pass.events + (if GoesOnToSend(pass, writable) then [SendEvent(pass.host, sending)] else [])
              && sent == if GoesOnToSend(pass, writable) then SendBytes(pass.host, sending) else []
      // In particular, on a stream that is only writable it sends what tx has left.
      ensures !readable && writable && sending.Takes? ==>
                var left := TxRest(old(View()).tx);
                var n := Min(sending.most, |left|);
                old(tx) != null && events == [H.Sends(n)] && sent == left[..n]
      ensures !readable && writable && sending.Refuses? ==> events == [H.HitsIoError] && state == H.Inactive
    {
      ghost var start := View();
      CallbackStarts();
      WritableHasTx();
      hide Valid, LiveAfter, Ran, SentBy;
      rest, sent, taken, events := Exchange(readable, writable, incoming, answers, sending, start);
      RefusedCloses(start, events, taken, sent);
      EndCallback(start, events, taken, sent);
    }

    lemma WritableHasTx()
      requires Valid()
      ensures watch.writable ==> tx != null
    {
      hide H.HostOk;
    }

    lemma RefusedCloses(start: H.Host, events: seq<H.HostEvent>, taken: seq<byte>, sent: seq<byte>)
      requires LiveAfter(start, events, taken, sent)
      ensures events == [H.HitsIoError] ==> state == H.Inactive
    {
      hide H.HostOk, H.Wants, H.Fail;
      HostTheorems.CloseRank(start, true, IoFault);
      if events == [H.HitsIoError] {
        assert events[0] == H.HitsIoError && HostTheorems.Run(start, events).Some?;
        HostTheorems.RunOne(start, H.HitsIoError);
      }
    }

    method Exchange(readable: bool, writable: bool, incoming: seq<byte>, answers: seq<Answer>, sending: Sending,
                    ghost start: H.Host)
      returns (rest: seq<byte>, sent: seq<byte>, ghost taken: seq<byte>, ghost events: seq<H.HostEvent>)
      requires LiveAfter(start, [], [], []) && View() == start
      modifies Repr()
      ensures LiveAfter(start, events, taken, sent) && fresh(Repr() - old(Repr()))
      ensures taken + rest == incoming
      ensures var pass := ReadPart(start, readable, incoming, answers);
              && rest == pass.rest
              && events == pass.events + (if GoesOnToSend(pass, writable) then [SendEvent(pass.host, sending)] else [])
              && sent == if GoesOnToSend(pass, writable) then SendBytes(pass.host, sending) else []
    {
      hide LiveAfter, ReadPart, SendEvent, SendBytes;
      var go;
      go, rest, taken, events := ReadSome(readable, incoming, answers, start);
      sent, events := WriteSome(go && writable, sending, start, events, taken);
    }

    lemma CallbackStarts()
      requires Valid()
      ensures LiveAfter(View(), [], [], [])
    {
      RanNone(View());
      hide H.HostOk, H.Wants;
    }

    method EndCallback(ghost start: H.Host, ghost events: seq<H.HostEvent>, ghost taken: seq<byte>,
                       ghost sent: seq<byte>)
      requires LiveAfter(start, events, taken, sent)
      modifies this`watch
      ensures Valid() && Repr() == old(Repr()) && Ran(start, events, View(), taken, sent)
    {
      hide H.HostOk, H.Wants, Ran;
      UpdateEvents();
    }
  }
}
