/**
  * Output reaches the user while the console runs, and not only in the end: in
  * every state of a session, local writes alone are enough to show everything
  * that the host has received.
  */
module SessionOutput {
  import opened Options
  import opened Xdr
  import opened Protocol
  import opened Session
  import opened SessionInvariant
  import SessionIn
  import SessionProgress
  import SessionShutdown
  import H = HostMachine
  import G = GuestMachine
  import HostTheorems
  import HostConsoles
  import Refinement

  ghost predicate LocalWrites(writes: seq<H.HostEvent>) {
    forall i | 0 <= i < |writes| :: HostTheorems.TakesSome(writes[i])
  }

  lemma {:induction false} WritesAreLocal(h: H.Host, writes: seq<H.HostEvent>)
    requires LocalWrites(writes) && HostTheorems.Run(h, writes).Some?
    ensures HostConsoles.Ran(h, writes, HostTheorems.Run(h, writes).value, [], [])
    decreases |writes|
  {
    hide H.Enabled, H.Next;
    if writes != [] {
      WritesAreLocal(H.Next(h, writes[0]), writes[1..]);
    }
  }

  /** The writes as a part of the session. */
  lemma WritesInSession(s: Session, writes: seq<H.HostEvent>)
    requires LocalWrites(writes) && HostTheorems.Run(s.host, writes).Some?
    ensures Run(s, Refinement.OfHosts(writes)) == Some(s.(host := HostTheorems.Run(s.host, writes).value))
  {
    WritesAreLocal(s.host, writes);
    hide HostTheorems.Run, Run;
    Refinement.HostRunIsSession(s, writes, HostTheorems.Run(s.host, writes).value, [], []);
    assert s.toHost[0..] == s.toHost && s.toGuest + [] == s.toGuest;
  }

  lemma HostFine(s: Session)
    requires Inv(s)
    ensures H.HostOk(s.host)
  {
  }

  /**
    * In every run in which the host has not failed, RUNNING or STOPPING: local
    * writes alone lead to a state in which all standard output that the host has
    * received is written, and nothing else has changed on the streams.
    */
  lemma OutputReachesUser(form: H.DrainForm, escape: Option<byte>, actions: seq<Action>)
    returns (writes: seq<H.HostEvent>)
    requires RunFromStart(form, escape, actions).Some?
    requires RunFromStart(form, escape, actions).value.host.state in {H.Running, H.Stopping}
    ensures LocalWrites(writes) && forall i | 0 <= i < |writes| :: writes[i].WritesStdout?
    ensures RunFromStart(form, escape, actions + Refinement.OfHosts(writes)).Some?
    ensures var s := RunFromStart(form, escape, actions).value;
            var n := RunFromStart(form, escape, actions + Refinement.OfHosts(writes)).value;
            && n == s.(host := n.host) && n.host.log.received == s.host.log.received
            && n.host.log.stdoutWritten == PayloadOf(n.host.log.received, STDOUT)
  {
    hide Start, Inv, H.HostOk, HostTheorems.Run, Run, PayloadOf;
    SessionIn.RunOk(form, escape, actions);
    var s := RunFromStart(form, escape, actions).value;
    HostFine(s);
    writes := HostTheorems.StdoutCatchesUp(s.host);
    WritesInSession(s, writes);
    SessionProgress.RunAppend(Start(form, escape), actions, Refinement.OfHosts(writes));
  }

  /** The same of standard error, if it is drained as meant. */
  lemma ErrorsReachUser(escape: Option<byte>, actions: seq<Action>) returns (writes: seq<H.HostEvent>)
    requires RunFromStart(H.AsMeant, escape, actions).Some?
    requires RunFromStart(H.AsMeant, escape, actions).value.host.state in {H.Running, H.Stopping}
    ensures LocalWrites(writes) && forall i | 0 <= i < |writes| :: writes[i].WritesStderr?
    ensures RunFromStart(H.AsMeant, escape, actions + Refinement.OfHosts(writes)).Some?
    ensures var s := RunFromStart(H.AsMeant, escape, actions).value;
            var n := RunFromStart(H.AsMeant, escape, actions + Refinement.OfHosts(writes)).value;
            && n == s.(host := n.host) && n.host.log.received == s.host.log.received
            && n.host.log.stderrWritten == PayloadOf(n.host.log.received, STDERR)
  {
    hide Start, Inv, H.HostOk, HostTheorems.Run, Run, PayloadOf;
    SessionIn.RunOk(H.AsMeant, escape, actions);
    SessionShutdown.FormKept(H.AsMeant, escape, actions);
    var s := RunFromStart(H.AsMeant, escape, actions).value;
    HostFine(s);
    writes := HostTheorems.StderrCatchesUp(s.host);
    WritesInSession(s, writes);
    SessionProgress.RunAppend(Start(H.AsMeant, escape), actions, Refinement.OfHosts(writes));
  }

  /**
    * And at once: as long as something that was received is not written, a write
    * of any part of it is possible, whatever else the session could do.
    */
  lemma OutputIsOffered(form: H.DrainForm, escape: Option<byte>, actions: seq<Action>)
    requires RunFromStart(form, escape, actions).Some?
    requires var s := RunFromStart(form, escape, actions).value;
             s.host.state in {H.Running, H.Stopping}
             && s.host.log.stdoutWritten != PayloadOf(s.host.log.received, STDOUT)
    ensures var s := RunFromStart(form, escape, actions).value;
            var left := |PayloadOf(s.host.log.received, STDOUT)| - |s.host.log.stdoutWritten|;
            left > 0 && forall n: nat | n <= left :: Enabled(s, OfHost(H.WritesStdout(n)))
  {
    hide Start, Run, H.Enabled, PayloadOf;
    SessionIn.RunOk(form, escape, actions);
    var s := RunFromStart(form, escape, actions).value;
    HostFine(s);
    HostTheorems.QueuedCanBeWritten(s.host);
    LeftIsQueued(s.host);
  }

  lemma LeftIsQueued(h: H.Host)
    requires H.HostOk(h) && h.state in {H.Running, H.Stopping}
    ensures h.log.stdoutWritten + h.out[h.outOffset..] == PayloadOf(h.log.received, STDOUT)
    ensures h.out == [] ==> h.outOffset == 0
  {
    hide H.StateOk, H.OutboxOk, H.SignalsOk, PayloadOf;
  }
}
