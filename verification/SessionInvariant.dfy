/** What holds of host, guest and the bytes between them in every run. */
module SessionInvariant {
  import opened Options
  import opened Xdr
  import opened Protocol
  import opened Flow
  import opened Session
  import H = HostMachine
  import G = GuestMachine

  /** Bytes that the guest has put in tx and the host has not dealt with. */
  function ToHost(s: Session): seq<byte> {
    RxData(s.host.rx) + s.toHost + TxRest(s.guest.tx)
  }

  function ToGuest(s: Session): seq<byte> {
    RxData(s.guest.rx) + s.toGuest + TxRest(s.host.tx)
  }

  /** The direction from the guest to the host. */
  ghost predicate OutFlow(s: Session) {
    match s.host.state
    case Inactive => s.host.log.received <= s.guest.log.sent
    case Waiting =>
      && s.guest.state != G.Running
      && (s.guest.state == G.Waiting ==> NoSync(ToHost(s)))
      && (s.guest.state == G.Syncing && |ToHost(s)| > 0 ==> NoSync(ToHost(s)[..|ToHost(s)| - 1]))
      && (s.guest.state == G.Syncing && !s.guest.quit ==>
            |ToHost(s)| > 0 && ToHost(s)[|ToHost(s)| - 1] == SYNC)
    case Syncing => s.guest.state == G.Syncing && ToHost(s) == []
    case _ =>
      && s.guest.state != G.Waiting
      && Queue(s.host.log.received, s.guest.log.sent, ToHost(s), !s.guest.quit)
  }

  /**
    * What the guest is going to read, for as long as it reads: `x`, which left
    * the host, and then the rest of the host's tx.  Once QUIT follows a packet
    * that was cut short, the guest may take bytes of QUIT for bytes of that
    * packet, and nothing is claimed any more.
    */
  ghost predicate Reads(h: H.Host, g: G.Guest, x: seq<byte>) {
    var flight := x + TxRest(h.tx);
    && AllSendable(h.log.outbox)
    && match g.state
       case Waiting => h.state in {H.Waiting, H.Inactive} && AllWait(flight)
       case Syncing =>
         (match h.state
          case Waiting => AllWait(flight)
          case Syncing => Lead(flight, [])
          case Running => Lead(flight, Wire(h.log.outbox))
          case Inactive => LeadPrefix(flight, Wire(h.log.outbox))
          case _ => false)
       case Running =>
         !h.log.garbled ==>
           Queue(g.log.received, h.log.outbox, flight, h.state != H.Inactive && !h.log.cut)
  }

  /** The direction from the host to the guest. */
  ghost predicate InFlow(s: Session) {
    G.Looping(s.guest) ==>
      && Reads(s.host, s.guest, RxData(s.guest.rx) + s.toGuest)
      && (s.guest.state == G.Syncing && SYNC in s.toGuest ==> s.guest.tx.None?)
  }

  /** What the guest took from the host is what the user typed. */
  ghost predicate InData(s: Session) {
    && (s.guest.state == G.Running ==> s.host.state !in {H.Waiting, H.Syncing})
    && (!s.host.log.garbled ==>
          && !s.guest.log.fault.Protocol?()
          && PayloadOf(s.guest.log.received, STDIN) <= s.host.log.stdinRead
          && (s.guest.state == G.Running && !s.guest.appinOpen ==>
                s.host.localEOF && PayloadOf(s.guest.log.received, STDIN) == s.host.log.stdinRead))
  }

  ghost predicate Inv(s: Session) {
    && H.HostOk(s.host)
    && G.GuestOk(s.guest)
    && (!s.raw ==> s.guest == G.Boot())
    && !s.host.log.fault.Protocol?()
    && OutFlow(s)
    && InFlow(s)
    && InData(s)
  }
}
