/**
  * From every state that a run can reach, as long as nothing fails, the
  * handshake goes forward: no action sets it back, and there is always one that
  * brings it closer to its end.
  */
module SessionProgress {
  import opened Options
  import opened Xdr
  import opened Protocol
  import opened Flow
  import opened Session
  import opened SessionInvariant
  import opened SessionOut
  import opened SessionIn
  import opened SessionTheorems
  import HostTheorems
  import H = HostMachine
  import G = GuestMachine

  lemma {:induction false} RunMore(s: Session, first: Action, actions: seq<Action>)
    requires Enabled(s, first) && Run(Next(s, first), actions).Some?
    ensures Run(s, [first] + actions) == Run(Next(s, first), actions)
  {
    hide Enabled, Next;
    var all := [first] + actions;
    if actions == [] {
      assert all[..0] == [] && all == [first];
      assert Run(s, all[..|all| - 1]) == Some(s);
    } else {
      var front := actions[..|actions| - 1];
      RunMore(s, first, front);
      assert all[..|all| - 1] == [first] + front;
      assert all[|all| - 1] == actions[|actions| - 1];
    }
  }

  lemma {:induction false} RunAppend(s: Session, a: seq<Action>, b: seq<Action>)
    requires Run(s, a).Some?
    ensures Run(s, a + b) == Run(Run(s, a).value, b)
  {
    hide Enabled, Next;
    if b == [] {
      assert a + b == a;
    } else {
      var front := b[..|b| - 1];
      RunAppend(s, a, front);
      assert (a + b)[..|a + b| - 1] == a + front;
    }
  }

  // What may go wrong.

  /** A stream or a process fails, or the user leaves the console. */
  predicate Failing(escape: Option<byte>, a: Action) {
    match a
    case OfHost(e) => HostTheorems.Fails(e) || (e.ReadsStdin? && e.data != [] && escape == Some(e.data[0]))
    case OfGuest(e) => e.HostEnds? || e.SendFails? || e.HostHangsUp? || e.SignalPipeFails?
    case _ => false
  }

  // The handshake.

  /** Nothing has failed and the command is not running yet. */
  ghost predicate Shaking(s: Session) {
    && Inv(s) && G.Looping(s.guest)
    && s.guest.state in {G.Waiting, G.Syncing} && s.host.state in {H.Waiting, H.Syncing, H.Running}
  }

  /** How far the handshake is. */
  function Phase(s: Session): nat {
    if !s.raw then 5
    else if s.guest.state == G.Waiting then 4
    else if s.host.state == H.Waiting then 3
    else if s.host.state == H.Syncing then 2
    else if s.guest.state == G.Syncing then 1
    else 0
  }

  /** How many bytes come before the first SYNC. */
  function SyncAt(x: seq<byte>): nat {
    if x == [] || x[0] == SYNC then 0 else 1 + SyncAt(x[1..])
  }

  /** And how much of the present phase is left. */
  function Left(s: Session): nat {
    if s.guest.state == G.Waiting then
      if s.toGuest != [] then 0 else if s.host.tx.Some? then 1 else 2
    else if s.host.state == H.Waiting then 2 * |TxRest(s.guest.tx)| + |s.toHost|
    else SyncAt(s.toGuest)
  }

  ghost predicate Closer(s: Session, n: Session) {
    && Inv(n) && G.Looping(n.guest)
    && (n.guest.state == G.Running || Shaking(n))
    && (Phase(n) < Phase(s) || (Phase(n) == Phase(s) && Left(n) < Left(s)))
  }

  /** A booted guest that has not heard from the host. */
  lemma ShakeFirst(s: Session) returns (a: Action)
    requires Shaking(s) && s.raw && s.guest.state == G.Waiting
    ensures Enabled(s, a) && Closer(s, Next(s, a)) && !Failing(s.host.escape, a) && !StartFails(a)
  {
    hide OutFlow, InData, H.OutboxOk, H.DeliveryOk, H.SignalsOk, H.QueuesOk, G.SentOk, G.StdinOk, G.ExitOk;
    assert s.host.state == H.Waiting;
    if s.toGuest != [] {
      assert (RxData(s.guest.rx) + s.toGuest + TxRest(s.host.tx))[0] == s.toGuest[0];
      a := OfGuest(G.Receives([WAIT], true));
      HandshakeStep(s, [WAIT], true);
    } else if s.host.tx.Some? {
      a := OfHost(H.Sends(1));
    } else {
      a := OfHost(H.TimerFires);
    }
    ActionKeeps(s, a);
  }

  /** The guest has answered, and the answer is on its way. */
  lemma ShakeAnswer(s: Session) returns (a: Action)
    requires Shaking(s) && s.raw && s.guest.state == G.Syncing && s.host.state == H.Waiting
    ensures Enabled(s, a) && Closer(s, Next(s, a)) && !Failing(s.host.escape, a) && !StartFails(a)
  {
    hide Shaking, Closer, Next;
    if s.guest.tx.Some? {
      AnswerSends(s);
      a := OfGuest(G.Sends(1));
    } else {
      AnswerArrives(s);
      a := OfHost(H.Receives(s.toHost[..1]));
    }
  }

  lemma AnswerSends(s: Session)
    requires Shaking(s) && s.raw && s.guest.state == G.Syncing && s.host.state == H.Waiting && s.guest.tx.Some?
    ensures var a := OfGuest(G.Sends(1)); Enabled(s, a) && Closer(s, Next(s, a))
  {
    assert s.guest.tx.value == Tx([SYNC], 0) by {
      hide OutFlow, InFlow, InData, H.HostOk, G.RxOk, G.SentOk, G.StdinOk, G.ExitOk, Encode;
    }
    hide Inv;
    assert Enabled(s, OfGuest(G.Sends(1)));
    ActionKeeps(s, OfGuest(G.Sends(1)));
  }

  lemma AnswerArrives(s: Session)
    requires Shaking(s) && s.raw && s.guest.state == G.Syncing && s.host.state == H.Waiting && s.guest.tx.None?
    ensures s.toHost != []
    ensures var a := OfHost(H.Receives(s.toHost[..1])); Enabled(s, a) && Closer(s, Next(s, a))
  {
    hide InFlow, InData, H.OutboxOk, H.DeliveryOk, H.SignalsOk, H.QueuesOk, G.GuestOk, H.Receive;
    assert |ToHost(s)| == |s.toHost|;
    var chunk := s.toHost[..1];
    var a := OfHost(H.Receives(chunk));
    assert Enabled(s, a);
    HostReceives(s, chunk);
    HandshakeByte(s.host, chunk);
    hide Inv;
    ActionKeeps(s, a);
  }

  /** The host has seen the answer and sends its own SYNC. */
  lemma ShakeReply(s: Session) returns (a: Action)
    requires Shaking(s) && s.raw && s.guest.state == G.Syncing && s.host.state == H.Syncing
    ensures Enabled(s, a) && Closer(s, Next(s, a)) && !Failing(s.host.escape, a) && !StartFails(a)
  {
    hide OutFlow, InFlow, InData, H.OutboxOk, H.DeliveryOk, H.SignalsOk, H.QueuesOk, G.GuestOk;
    a := OfHost(H.Sends(1));
    ActionKeeps(s, a);
  }

  /** The host's SYNC is in the channel, behind some WAIT bytes. */
  lemma ShakeLast(s: Session) returns (a: Action)
    requires Shaking(s) && s.raw && s.guest.state == G.Syncing && s.host.state == H.Running
    ensures Enabled(s, a) && Closer(s, Next(s, a)) && !Failing(s.host.escape, a) && !StartFails(a)
  {
    hide Next, Enabled, Inv, Closer;
    LastByte(s);
    var chunk := s.toGuest[..1];
    a := OfGuest(G.Receives(chunk, true));
    NextByteEnabled(s);
    HandshakeStep(s, chunk, true);
    ActionKeeps(s, a);
    ByteCloser(s, Next(s, a), chunk[0]);
  }

  lemma NextByteEnabled(s: Session)
    requires Shaking(s) && s.raw && s.toGuest != []
    ensures Enabled(s, OfGuest(G.Receives(s.toGuest[..1], true)))
  {
    hide OutFlow, InFlow, InData, H.HostOk, G.TxOk, G.SentOk, G.StdinOk, G.ExitOk;
  }

  lemma ByteCloser(s: Session, n: Session, b: byte)
    requires Shaking(s) && s.raw && s.guest.state == G.Syncing && s.host.state == H.Running
    requires b in {WAIT, SYNC} && ByteStep(s, n, b, true) && Inv(n)
    ensures Closer(s, n)
  {
    hide Inv;
  }

  lemma LastByte(s: Session)
    requires Shaking(s) && s.guest.state == G.Syncing && s.host.state == H.Running
    ensures s.toGuest != [] && s.toGuest[0] in {WAIT, SYNC}
  {
    hide OutFlow, InData, H.DeliveryOk, H.SignalsOk, H.QueuesOk, G.TxOk, G.SentOk, G.StdinOk, G.ExitOk, H.OutboxShape,
      Encode, Wire;
    var flight := RxData(s.guest.rx) + s.toGuest + TxRest(s.host.tx);
    assert RxData(s.guest.rx) == [];
    ByteLead(s.host, flight);
    SentIsWhole(s.host);
    assert |flight| == |s.toGuest| + |TxRest(s.host.tx)|;
    assert flight[0] == s.toGuest[0];
  }

  /** What is left of tx is at most the bytes of the outbox. */
  lemma SentIsWhole(h: H.Host)
    requires H.StateOk(h) && H.OutboxOk(h) && h.state == H.Running && AllSendable(h.log.outbox)
    ensures |TxRest(h.tx)| <= |Wire(h.log.outbox)|
  {
    hide Encode, H.OutboxOk;
    if h.tx.Some? {
      var front := h.log.outbox[..|h.log.outbox| - 1];
      assert h.log.outbox == front + [H.Last(h.log.outbox)];
      WireAppend(front, H.Last(h.log.outbox));
    }
  }

  lemma ShakeStep(s: Session) returns (a: Action)
    requires Shaking(s)
    ensures Enabled(s, a) && Closer(s, Next(s, a)) && !Failing(s.host.escape, a) && !StartFails(a)
  {
    hide Inv;
    if !s.raw {
      a := GoRaw;
      ActionKeeps(s, a);
    } else if s.guest.state == G.Waiting {
      a := ShakeFirst(s);
    } else if s.host.state == H.Waiting {
      a := ShakeAnswer(s);
    } else if s.host.state == H.Syncing {
      a := ShakeReply(s);
    } else {
      a := ShakeLast(s);
    }
  }

  /**
    * The handshake can always be carried through: however many bytes were
    * swallowed or echoed before, some finite continuation starts the command.
    */
  lemma {:induction false} CanStart(s: Session) returns (actions: seq<Action>)
    requires Shaking(s)
    ensures Run(s, actions).Some? && Run(s, actions).value.guest.log.starts == 1
    decreases Phase(s), Left(s)
  {
    hide Shaking, Inv, Next, Enabled;
    var a := ShakeStep(s);
    var n := Next(s, a);
    if n.guest.state == G.Running {
      RunMore(s, a, []);
      actions := [a] + [];
      RunningStarted(n);
    } else {
      var rest := CanStart(n);
      RunMore(s, a, rest);
      actions := [a] + rest;
    }
  }

  lemma RunningStarted(s: Session)
    requires Inv(s) && s.guest.state == G.Running
    ensures s.guest.log.starts == 1
  {
    hide OutFlow, InFlow, InData, H.HostOk, G.TxOk, G.SentOk, G.StdinOk, G.ExitOk;
  }

  lemma HandshakeCanComplete(form: H.DrainForm, escape: Option<byte>, actions: seq<Action>) returns (more: seq<Action>)
    requires RunFromStart(form, escape, actions).Some?
    requires var s := RunFromStart(form, escape, actions).value;
             && s.host.state in {H.Waiting, H.Syncing, H.Running}
             && G.Looping(s.guest) && s.guest.log.starts == 0
    ensures RunFromStart(form, escape, actions + more).Some?
    ensures RunFromStart(form, escape, actions + more).value.guest.log.starts == 1
  {
    hide Start;
    RunOk(form, escape, actions);
    var s := RunFromStart(form, escape, actions).value;
    assert s.guest.state != G.Running by {
      hide H.HostOk, OutFlow, InFlow, InData, G.TxOk, G.SentOk, G.StdinOk, G.ExitOk;
    }
    assert Shaking(s) by { hide Inv; }
    more := CanStart(s);
    RunAppend(Start(form, escape), actions, more);
  }

  // Nothing sets it back.

  lemma {:induction false} SyncAtAppend(x: seq<byte>, more: seq<byte>)
    requires SYNC in x
    ensures SyncAt(x + more) == SyncAt(x)
  {
    if x[0] != SYNC {
      assert (x + more)[1..] == x[1..] + more;
      SyncAtAppend(x[1..], more);
    }
  }

  /** The host has sent SYNC and the guest has not read it. */
  lemma SyncInChannel(s: Session)
    requires Shaking(s) && s.guest.state == G.Syncing && s.host.state == H.Running
    ensures SYNC in s.toGuest
  {
    hide OutFlow, InData, H.DeliveryOk, H.SignalsOk, H.QueuesOk, G.TxOk, G.SentOk, G.StdinOk, G.ExitOk, H.OutboxShape,
      Encode, Wire;
    var flight := RxData(s.guest.rx) + s.toGuest + TxRest(s.host.tx);
    assert RxData(s.guest.rx) == [];
    SentIsWhole(s.host);
    var k := |flight| - |Wire(s.host.log.outbox)| - 1;
    assert flight[k] == s.toGuest[k];
  }

  /** The command cannot be started. */
  predicate StartFails(a: Action) {
    a.OfGuest? && a.g.Receives? && !a.g.runs
  }

  /** The handshake goes on, no further from its end, or is over. */
  ghost predicate NotBack(s: Session, n: Session) {
    && Inv(n) && G.Looping(n.guest) && n.raw
    && (n.guest.state == G.Running || Shaking(n))
    && (Phase(n) < Phase(s) || (Phase(n) == Phase(s) && Left(n) <= Left(s)))
  }

  lemma HostShakes(h: H.Host, e: H.HostEvent)
    requires H.StateOk(h) && h.state in {H.Waiting, H.Syncing, H.Running}
    requires H.Enabled(h, e) && !e.Receives? && !Failing(h.escape, OfHost(e))
    ensures var n := H.Next(h, e);
            && n.state in {h.state, H.Running} && (n.state != h.state ==> h.state == H.Syncing)
            && (h.state == H.Waiting ==> e.Sends? || e.TimerFires?)
            && (h.state == H.Waiting && h.tx.Some? && n.tx.None? ==> e.Sends? && e.count == 1)
            && (n.state == H.Syncing && e.Sends? ==> e.count == 0)
  {
    hide Encode, EncodeI32;
  }

  /** The rest of the session is as it was. */
  lemma HostAlone(s: Session, e: H.HostEvent)
    requires Enabled(s, OfHost(e))
    ensures var n := Next(s, OfHost(e));
            && n.host == H.Next(s.host, e) && n.guest == s.guest && n.raw == s.raw
            && |n.toHost| == |s.toHost| - if e.Receives? then |e.chunk| else 0
  {
    hide H.Next, H.Enabled;
  }

  lemma HostEventEnabled(s: Session, e: H.HostEvent)
    requires Enabled(s, OfHost(e))
    ensures H.Enabled(s.host, e)
  {
    hide H.Enabled;
  }

  lemma HostStepShakes(s: Session, e: H.HostEvent)
    requires Shaking(s) && s.raw && Enabled(s, OfHost(e)) && !Failing(s.host.escape, OfHost(e)) && !e.Receives?
    ensures NotBack(s, Next(s, OfHost(e)))
  {
    hide Inv, H.Next, H.Enabled, H.StateOk;
    ActionKeeps(s, OfHost(e));
    HostAlone(s, e);
    HostEventEnabled(s, e);
    ShakingHost(s);
    HostShakes(s.host, e);
    HostLeft(s, e);
    hide Next, Enabled, Left;
  }

  lemma HostSends(s: Session, e: H.HostEvent)
    requires Enabled(s, OfHost(e))
    ensures var n := Next(s, OfHost(e));
            exists sent: seq<byte> ::
              n.toGuest == s.toGuest + sent && (if e.Sends? then |sent| == e.count else sent == [])
  {
    hide H.Next;
    if e.Sends? {
      var sent := TxRest(s.host.tx)[..e.count];
      assert Next(s, OfHost(e)).toGuest == s.toGuest + sent;
    } else {
      assert s.toGuest + [] == s.toGuest;
    }
  }

  /** Unless it comes to another phase, the host leaves no more of this one. */
  lemma HostLeft(s: Session, e: H.HostEvent)
    requires Shaking(s) && s.raw && Enabled(s, OfHost(e)) && !Failing(s.host.escape, OfHost(e)) && !e.Receives?
    ensures var n := Next(s, OfHost(e)); n.host.state == s.host.state ==> Left(n) <= Left(s)
  {
    hide Inv, H.Next, H.Enabled, H.StateOk;
    HostAlone(s, e);
    HostEventEnabled(s, e);
    ShakingHost(s);
    HostShakes(s.host, e);
    HostSends(s, e);
    var n := Next(s, OfHost(e));
    hide Next, Enabled, Shaking, TxRest;
    var sent: seq<byte> :| n.toGuest == s.toGuest + sent && (if e.Sends? then |sent| == e.count else sent == []);
    if s.guest.state == G.Syncing && s.host.state == H.Running {
      SyncInChannel(s);
      SyncAtAppend(s.toGuest, sent);
    } else if n.host.state == H.Syncing {
      assert n.toGuest == s.toGuest;
    }
  }

  lemma ShakingHost(s: Session)
    requires Shaking(s)
    ensures H.StateOk(s.host) && (s.guest.state == G.Waiting ==> s.host.state == H.Waiting)
  {
    hide OutFlow, InData, G.GuestOk, H.OutboxOk, H.DeliveryOk, H.SignalsOk, H.QueuesOk;
  }

  lemma HostReceiveShakes(s: Session, chunk: seq<byte>)
    requires Shaking(s) && s.raw && Enabled(s, OfHost(H.Receives(chunk)))
    ensures NotBack(s, Next(s, OfHost(H.Receives(chunk))))
  {
    hide Inv, H.Receive, H.Next, H.Enabled;
    ActionKeeps(s, OfHost(H.Receives(chunk)));
    HostEventEnabled(s, H.Receives(chunk));
    HostReceives(s, chunk);
    ShakingHost(s);
    if s.host.state == H.Waiting {
      OneByteReceived(s.host, chunk);
      HandshakeByte(s.host, chunk);
      hide H.StateOk, Enabled;
      ShakingAfter(Next(s, OfHost(H.Receives(chunk))));
    } else {
      ShakingChannel(s);
      assert false;
    }
  }

  lemma OneByteReceived(h: H.Host, chunk: seq<byte>)
    requires H.StateOk(h) && h.state == H.Waiting && H.Enabled(h, H.Receives(chunk))
    ensures h.rx == Some(OneByte) && |chunk| == 1
  {
  }

  lemma ShakingAfter(n: Session)
    requires Inv(n)
    ensures n.host.state == H.Syncing && G.Looping(n.guest) ==> n.guest.state == G.Syncing
  {
    hide InFlow, InData, H.HostOk, G.GuestOk;
  }

  /** Once the host has the guest's SYNC, nothing else is on its way to it. */
  lemma ShakingChannel(s: Session)
    requires Shaking(s) && s.host.state != H.Waiting
    ensures s.guest.state == G.Syncing && s.toHost == []
  {
    ShakingHost(s);
    hide Inv;
    StartChannel(s);
  }

  lemma GuestSends(s: Session, count: nat)
    requires Enabled(s, OfGuest(G.Sends(count)))
    ensures var n := Next(s, OfGuest(G.Sends(count)));
            && n == s.(guest := s.guest.(tx := n.guest.tx), toHost := n.toHost)
            && |TxRest(n.guest.tx)| == |TxRest(s.guest.tx)| - count && |n.toHost| == |s.toHost| + count
  {
  }

  lemma GuestShakes(s: Session, e: G.GuestEvent)
    requires Shaking(s) && s.raw && Enabled(s, OfGuest(e))
    requires !Failing(s.host.escape, OfGuest(e)) && !StartFails(OfGuest(e))
    ensures NotBack(s, Next(s, OfGuest(e)))
  {
    hide Inv, G.Next;
    ActionKeeps(s, OfGuest(e));
    if e.Receives? {
      HandshakeStep(s, e.chunk, e.runs);
      ByteShakes(s, Next(s, OfGuest(e)), e.chunk[0]);
    } else if e.Sends? {
      GuestSends(s, e.count);
    } else {
      NotStarted(s);
      GuestOnlyReaps(s.guest, e);
    }
  }

  lemma NotStarted(s: Session)
    requires Shaking(s)
    ensures s.guest.log.starts == 0
  {
    hide OutFlow, InFlow, InData, H.HostOk, G.TxOk, G.SentOk, G.StdinOk, G.ExitOk;
  }

  /** Before the command is started, nothing else can happen but that a child is reaped. */
  lemma GuestOnlyReaps(g: G.Guest, e: G.GuestEvent)
    requires g.state != G.Running && g.log.starts == 0 && G.Enabled(g, e) && G.Looping(g)
    requires !e.Receives? && !e.Sends? && !Failing(None, OfGuest(e))
    ensures var n := G.Next(g, e); n.state == g.state && n.tx == g.tx && G.Looping(n)
  {
    hide Encode, EncodeI32;
  }

  lemma ByteShakes(s: Session, n: Session, b: byte)
    requires Shaking(s) && s.raw && Inv(n) && ByteStep(s, n, b, true)
    ensures NotBack(s, n)
  {
    ByteIsGood(s, n, b);
    if s.guest.state == G.Syncing && b == SYNC {
      SyncMeansSent(s);
    }
    hide Inv;
  }

  lemma ByteIsGood(s: Session, n: Session, b: byte)
    requires Shaking(s) && Inv(n) && ByteStep(s, n, b, true)
    ensures b == WAIT || (b == SYNC && s.guest.state == G.Syncing)
  {
    hide OutFlow, InFlow, G.GuestOk, H.StateOk, H.DeliveryOk, H.SignalsOk, H.QueuesOk, H.OutboxShape;
  }

  lemma ActionShakes(s: Session, a: Action)
    requires Shaking(s) && s.raw && Enabled(s, a) && !Failing(s.host.escape, a) && !StartFails(a)
    ensures NotBack(s, Next(s, a))
  {
    hide Shaking, NotBack, Next, H.Enabled, G.Enabled;
    match a
    case OfHost(e) =>
      if e.Receives? {
        HostReceiveShakes(s, e.chunk);
      } else {
        HostStepShakes(s, e);
      }
    case OfGuest(e) => GuestShakes(s, e);
  }

  /** A command that has been started stays so. */
  lemma StartedStays(s: Session, a: Action)
    requires Inv(s) && Enabled(s, a) && s.guest.state == G.Running
    ensures Next(s, a).guest.state == G.Running
  {
    hide Inv, G.Next, H.Next, G.Enabled, H.Enabled;
    if a.OfGuest? {
      GuestStaysRunning(s.guest, a.g);
    }
  }

  lemma GuestStaysRunning(g: G.Guest, e: G.GuestEvent)
    requires G.Enabled(g, e) && g.state == G.Running
    ensures G.Next(g, e).state == G.Running
  {
    hide Encode, EncodeI32, G.Receive;
    if e.Receives? {
      StaysRunning(g, e.chunk, e.runs);
    }
  }

  lemma EscapeStays(s: Session, a: Action)
    requires Enabled(s, a)
    ensures Next(s, a).host.escape == s.host.escape
  {
    hide H.Next, G.Next;
    if a.OfHost? {
      HostTheorems.FormStays(s.host, a.h);
    }
  }

  ghost predicate NothingGoesWrong(escape: Option<byte>, actions: seq<Action>) {
    forall i | 0 <= i < |actions| :: !Failing(escape, actions[i]) && !StartFails(actions[i])
  }

  /**
    * The handshake goes forward.  Once the console is in raw mode, no action of
    * a run in which nothing goes wrong sets it back, and until the command is
    * started an action is possible that brings it closer to its end.
    */
  lemma {:induction false} HandshakeGoesOn(s: Session, actions: seq<Action>)
    requires Shaking(s) && s.raw && Run(s, actions).Some? && NothingGoesWrong(s.host.escape, actions)
    ensures var n := Run(s, actions).value;
            && n.host.escape == s.host.escape
            && (if n.guest.state == G.Running then n.guest.log.starts == 1
                else NotBack(s, n) && Shaking(n) && exists a :: Advances(n, a))
    ensures Inv(Run(s, actions).value)
  {
    hide Shaking, NotBack, Next, Enabled, Failing, StartFails, Advances, Inv;
    if actions == [] {
      ShakingSelf(s);
      var a := Advancing(s);
    } else {
      var front, a := actions[..|actions| - 1], actions[|actions| - 1];
      assert NothingGoesWrong(s.host.escape, front);
      HandshakeGoesOn(s, front);
      var m := Run(s, front).value;
      var n := Next(m, a);
      EscapeStays(m, a);
      ActionKeeps(m, a);
      if m.guest.state == G.Running {
        StartedStays(m, a);
        RunningStarted(n);
      } else {
        NotBackRaw(s, m);
        ActionShakes(m, a);
        if n.guest.state == G.Running {
          RunningStarted(n);
        } else {
          NotBackTwice(s, m, n);
          var next := Advancing(n);
        }
      }
    }
  }

  ghost predicate Advances(s: Session, a: Action) {
    Enabled(s, a) && Closer(s, Next(s, a)) && !Failing(s.host.escape, a) && !StartFails(a)
  }

  lemma Advancing(s: Session) returns (a: Action)
    requires Shaking(s) && s.raw
    ensures Advances(s, a)
  {
    a := ShakeStep(s);
  }

  lemma ShakingSelf(s: Session)
    requires Shaking(s) && s.raw
    ensures NotBack(s, s) && Inv(s) && s.guest.state != G.Running
  {
    hide Inv;
  }

  lemma NotBackRaw(s: Session, n: Session)
    requires NotBack(s, n)
    ensures n.raw
  {
    hide Inv;
  }

  lemma NotBackTwice(s: Session, m: Session, n: Session)
    requires NotBack(s, m) && NotBack(m, n) && n.guest.state != G.Running
    ensures NotBack(s, n) && Shaking(n) && n.raw
  {
    hide Inv, Phase, Left;
  }
}
