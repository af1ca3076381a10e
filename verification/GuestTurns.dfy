/**
  * One turn of eventloop as a value: given what poll reports and what the reads
  * and writes return, which events happen, in the order of the descriptors.
  */
module GuestTurns {
  import opened Options
  import opened Xdr
  import opened Protocol
  import G = GuestMachine

  /** What a write returns: a failure, or how many bytes at most it takes. */
  datatype Write = Fails | Takes(most: nat)

  datatype Child = Child(app: bool, status: int32)

  /** The signal pipe: nothing, a read that fails, or the children that waitpid then finds. */
  datatype Signals = Quiet | Broken | Children(children: seq<Child>)

  /**
    * What poll reports on the descriptors that it is given, and what follows: on
    * the application's outputs some data, or nothing at their end; on the host
    * device how many bytes at most each read returns, and whether run_command
    * succeeds if it is called.
    */
  datatype Report = Report(
    signals: Signals,
    appin: Option<Write>,
    appout: Option<seq<byte>>,
    apperr: Option<seq<byte>>,
    hostIn: bool, amounts: seq<nat>, runs: bool,
    hostOut: Option<Write>,
    hangup: bool)

  /** The guest, what has happened, and what has not been read from the host device. */
  datatype Pass = Pass(guest: G.Guest, events: seq<G.GuestEvent>, rest: seq<byte>)

  function Min(a: nat, b: nat): nat { if a < b then a else b }

  function Clip(data: seq<byte>): (d: seq<byte>)
    ensures |d| <= G.APP_IO && (|data| <= G.APP_IO ==> d == data) && (d == [] <==> data == [])
  {
    if |data| > G.APP_IO then data[..G.APP_IO] else data
  }

  /** An event happens, if there is one. */
  function Stage(p: Pass, e: Option<G.GuestEvent>): Pass {
    if e.Some? && G.Enabled(p.guest, e.value)
    then Pass(G.Next(p.guest, e.value), p.events + [e.value], p.rest) else p
  }

  function ReapEvent(g: G.Guest, c: Child): G.GuestEvent {
    G.Reaps(c.app && g.state == G.Running && !g.appQuit, c.status)
  }

  function Reaping(p: Pass, children: seq<Child>): Pass
    decreases |children|
  {
    if children == [] then p else Reaping(Stage(p, Some(ReapEvent(p.guest, children[0]))), children[1..])
  }

  function Signalled(p: Pass, s: Signals): Pass {
    match s
    case Quiet => p
    case Broken => Stage(p, Some(G.SignalPipeFails))
    case Children(children) => Reaping(p, children)
  }

  function AppinEvent(g: G.Guest, polled: bool, w: Option<Write>): Option<G.GuestEvent> {
    if !polled || w.None? then None
    else if w.value.Fails? then Some(G.AppReadFails)
    else if g.toStdinOffset <= |g.toStdin| then Some(G.AppReads(Min(w.value.most, |g.toStdin| - g.toStdinOffset)))
    else None
  }

  function AppoutEvent(g: G.Guest, polled: bool, data: Option<seq<byte>>): Option<G.GuestEvent> {
    if !polled || data.None? || g.tx.Some? then None else Some(G.AppWritesOut(Clip(data.value)))
  }

  function ApperrEvent(g: G.Guest, polled: bool, data: Option<seq<byte>>): Option<G.GuestEvent> {
    if !polled || data.None? || g.tx.Some? then None else Some(G.AppWritesErr(Clip(data.value)))
  }

  /** The application's descriptors, in the order of the fd array. */
  function Applied(p: Pass, polls: G.Poll, r: Report): Pass {
    var a := Stage(p, AppinEvent(p.guest, polls.appIn, r.appin));
    var b := Stage(a, AppoutEvent(a.guest, polls.appOut, r.appout));
    Stage(b, ApperrEvent(b.guest, polls.appErr, r.apperr))
  }

  /** After a length word the guest reads on at once. */
  predicate WordDone(g: G.Guest, chunk: seq<byte>) {
    g.state == G.Running && g.rx.Some? && g.rx.value.length == LEN_MAX == |g.rx.value.data| + |chunk|
  }

  function First(amounts: seq<nat>): nat { if amounts == [] then 0 else amounts[0] }

  function Others(amounts: seq<nat>): seq<nat> { if amounts == [] then [] else amounts[1..] }

  /** How many bytes a read of the host device returns. */
  function Got(g: G.Guest, rest: seq<byte>, most: nat): (n: nat)
    requires g.rx.Some?
    ensures n <= |rest|
  {
    var room := if |g.rx.value.data| < g.rx.value.length then g.rx.value.length - |g.rx.value.data| else 0;
    Min(most, Min(room, |rest|))
  }

  /** The reads of the host device. */
  function HostRead(p: Pass, amounts: seq<nat>, runs: bool): Pass
    decreases |p.rest|
  {
    if p.guest.rx.None? then p
    else
      var n := Got(p.guest, p.rest, First(amounts));
      if n == 0 then Stage(p, Some(G.HostEnds))
      else
        var chunk := p.rest[..n];
        var q := Stage(p, Some(G.Receives(chunk, runs))).(rest := p.rest[n..]);
        if WordDone(p.guest, chunk) && q.guest.log.fault == NoFault then HostRead(q, Others(amounts), runs) else q
  }

  function HostOutEvent(g: G.Guest, polled: bool, w: Option<Write>): Option<G.GuestEvent> {
    if !polled || w.None? || g.tx.None? then None
    else if w.value.Fails? then Some(G.SendFails)
    else if g.tx.value.offset <= |g.tx.value.wire|
    then Some(G.Sends(Min(w.value.most, |g.tx.value.wire| - g.tx.value.offset)))
    else None
  }

  function HangupEvent(g: G.Guest, polled: bool, hangup: bool): Option<G.GuestEvent> {
    if polled && hangup && !g.quit then Some(G.HostHangsUp) else None
  }

  /** The host device: input, then output, then whatever else poll says of it. */
  function Hosted(p: Pass, polls: G.Poll, r: Report): Pass {
    var a := if polls.hostIn && r.hostIn then HostRead(p, r.amounts, r.runs) else p;
    if a.guest.log.fault != NoFault then a
    else
      var b := Stage(a, HostOutEvent(a.guest, polls.hostOut, r.hostOut));
      Stage(b, HangupEvent(b.guest, polls.hostIn || polls.hostOut, r.hangup))
  }

  /** What is polled is decided first; then each descriptor is served. */
  function Turn(p: Pass, r: Report): Pass {
    var polls := G.Polls(p.guest);
    var s := Signalled(p, r.signals);
    if s.guest.log.fault != NoFault then s else Hosted(Applied(s, polls, r), polls, r)
  }

  /** The loop, for as many turns as there are reports. */
  function Turns(p: Pass, reports: seq<Report>): Pass
    decreases |reports|
  {
    if reports == [] || !G.Looping(p.guest) then p else Turns(Turn(p, reports[0]), reports[1..])
  }

  // The loops, one step at a time.

  lemma NoStage(p: Pass)
    ensures Stage(p, None) == p
  {
  }

  lemma TurnsStop(p: Pass, reports: seq<Report>)
    ensures reports == [] || !G.Looping(p.guest) ==> Turns(p, reports) == p
  {
  }

  /** What the reads from the i-th on return. */
  function From(amounts: seq<nat>, i: nat): seq<nat> {
    if i <= |amounts| then amounts[i..] else []
  }

  lemma FromStart(amounts: seq<nat>)
    ensures From(amounts, 0) == amounts
  {
  }

  lemma FromNext(amounts: seq<nat>, i: nat)
    ensures First(From(amounts, i)) == (if i < |amounts| then amounts[i] else 0)
    ensures Others(From(amounts, i)) == From(amounts, i + 1)
  {
  }

  lemma ReadingOn(p: Pass, amounts: seq<nat>, runs: bool)
    requires p.guest.rx.Some?
    ensures var n := Got(p.guest, p.rest, First(amounts));
            var e := if n == 0 then G.HostEnds else G.Receives(p.rest[..n], runs);
            G.Enabled(p.guest, e) ==>
              var q := Pass(G.Next(p.guest, e), p.events + [e], p.rest[n..]);
              HostRead(p, amounts, runs) ==
              if n > 0 && WordDone(p.guest, p.rest[..n]) && q.guest.log.fault == NoFault
              then HostRead(q, Others(amounts), runs) else q
  {
    hide G.Enabled, G.Next, Got, WordDone;
    assert p.rest[0..] == p.rest;
  }
}
