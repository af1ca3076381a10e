/**
  * The host console and the guest loop joined by one byte stream in each
  * direction: every interleaving of their events, every split of reads and
  * writes.
  */
module Session {
  import opened Options
  import opened Xdr
  import opened Protocol
  import H = HostMachine
  import G = GuestMachine

  datatype Session = Session(
    host: H.Host,
    guest: G.Guest,
    raw: bool,                 // the guest has put the console in raw mode
    toGuest: seq<byte>,
    toHost: seq<byte>)

  /**
    * Until the console is in raw mode, and the guest in its loop, the terminal
    * in between may swallow what the host sends and show the host other bytes
    * (echoes, boot messages), as long as none of them is a SYNC byte.
    */
  datatype Action =
    | OfHost(h: H.HostEvent)
    | OfGuest(g: G.GuestEvent)
    | Swallow(at: nat)
    | Echo(b: byte)
    | GoRaw

  /** The host has attached; the guest is booting. */
  function Start(form: H.DrainForm, escape: Option<byte>): Session {
    Session(H.Attach(H.Fresh(form, escape)), G.Boot(), false, [], [])
  }

  predicate Enabled(s: Session, a: Action) {
    match a
    case OfHost(e) => H.Enabled(s.host, e) && (e.Receives? ==> e.chunk <= s.toHost)
    case OfGuest(e) => s.raw && G.Enabled(s.guest, e) && (e.Receives? ==> e.chunk <= s.toGuest)
    case Swallow(at) => !s.raw && at < |s.toGuest|
    case Echo(b) => !s.raw && b != SYNC
    case GoRaw => !s.raw
  }

  function Next(s: Session, a: Action): Session
    requires Enabled(s, a)
  {
    match a
    case OfHost(e) =>
      var t := s.(host := H.Next(s.host, e));
      if e.Receives? then t.(toHost := s.toHost[|e.chunk|..])
      else if e.Sends? then t.(toGuest := s.toGuest + TxRest(s.host.tx)[..e.count])
      else t
    case OfGuest(e) =>
      var t := s.(guest := G.Next(s.guest, e));
      if e.Receives? then t.(toGuest := s.toGuest[|e.chunk|..])
      else if e.Sends? then t.(toHost := s.toHost + TxRest(s.guest.tx)[..e.count])
      else t
    case Swallow(at) => s.(toGuest := s.toGuest[..at] + s.toGuest[at + 1..])
    case Echo(b) => s.(toHost := s.toHost + [b])
    case GoRaw => s.(raw := true)
  }

  /** The state after the actions, if each of them is enabled when its turn comes. */
  function Run(s: Session, actions: seq<Action>): Option<Session> {
    if actions == [] then Some(s)
    else
      var before := Run(s, actions[..|actions| - 1]);
      var a := actions[|actions| - 1];
      if before.Some? && Enabled(before.value, a) then Some(Next(before.value, a)) else None
  }

  function RunFromStart(form: H.DrainForm, escape: Option<byte>, actions: seq<Action>): Option<Session> {
    Run(Start(form, escape), actions)
  }
}
