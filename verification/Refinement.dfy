/**
  * The programmed host and the programmed guest, joined by two byte streams,
  * do nothing that the session cannot do: what a callback of the one or turns
  * of the other's loop do to the streams are actions of a session, so the
  * theorems about sessions hold of them.
  */
module Refinement {
  import opened Options
  import opened Xdr
  import opened Protocol
  import opened Session
  import SessionProgress
  import H = HostMachine
  import G = GuestMachine
  import HostTheorems
  import HostConsoles
  import GuestLoops
  import GuestTheorems

  function OfHosts(events: seq<H.HostEvent>): (actions: seq<Action>)
    ensures |actions| == |events|
  {
    if events == [] then [] else [OfHost(events[0])] + OfHosts(events[1..])
  }

  function OfGuests(events: seq<G.GuestEvent>): (actions: seq<Action>)
    ensures |actions| == |events|
  {
    if events == [] then [] else OfGuests(events[..|events| - 1]) + [OfGuest(events[|events| - 1])]
  }

  lemma HostStep(s: Session, e: H.HostEvent)
    requires H.Enabled(s.host, e) && HostConsoles.BytesOf(Some(e)) <= s.toHost
    ensures Enabled(s, OfHost(e))
    ensures Next(s, OfHost(e)) ==
            s.(host := H.Next(s.host, e), toHost := s.toHost[|HostConsoles.BytesOf(Some(e))|..],
               toGuest := s.toGuest + HostConsoles.BytesSent(s.host, e))
  {
    hide H.Next;
    assert s.toHost[0..] == s.toHost && s.toGuest + [] == s.toGuest;
  }

  /** A callback of the host. */
  lemma {:induction false} HostRunIsSession(s: Session, events: seq<H.HostEvent>, n: H.Host,
                                                 taken: seq<byte>, sent: seq<byte>)
    requires HostConsoles.Ran(s.host, events, n, taken, sent) && taken <= s.toHost
    ensures Run(s, OfHosts(events)) ==
            Some(s.(host := n, toHost := s.toHost[|taken|..], toGuest := s.toGuest + sent))
    decreases |events|
  {
    hide Enabled, Next, H.Enabled, H.Next, HostConsoles.BytesOf, HostConsoles.BytesSent;
    if events == [] {
      assert s.toHost[0..] == s.toHost && s.toGuest + [] == s.toGuest;
    } else {
      var e, rest := events[0], events[1..];
      var got, put := HostConsoles.BytesOf(Some(e)), HostConsoles.BytesSent(s.host, e);
      assert taken == got + HostConsoles.BytesIn(rest);
      HostStep(s, e);
      var t := Next(s, OfHost(e));
      var later := HostConsoles.BytesOut(t.host, rest);
      assert t.toHost == s.toHost[|got|..];
      assert taken[|got|..] == HostConsoles.BytesIn(rest);
      assert HostConsoles.BytesIn(rest) <= t.toHost;
      HostRunIsSession(t, rest, n, HostConsoles.BytesIn(rest), later);
      SessionProgress.RunMore(s, OfHost(e), OfHosts(rest));
      Associative(s.toGuest, put, later);
      assert s.toHost[|got|..][|HostConsoles.BytesIn(rest)|..] == s.toHost[|taken|..];
    }
  }

  lemma GuestStep(s: Session, e: G.GuestEvent)
    requires s.raw && G.Enabled(s.guest, e) && GuestLoops.BytesOf(e) <= s.toGuest
    ensures Enabled(s, OfGuest(e))
    ensures Next(s, OfGuest(e)) ==
            s.(guest := G.Next(s.guest, e), toGuest := s.toGuest[|GuestLoops.BytesOf(e)|..],
               toHost := s.toHost + GuestLoops.SentBy(s.guest, e))
  {
    hide G.Next;
    assert s.toGuest[0..] == s.toGuest && s.toHost + [] == s.toHost;
  }

  /** Turns of the guest's loop. */
  lemma {:induction false} GuestRunIsSession(s: Session, events: seq<G.GuestEvent>)
    requires s.raw && GuestTheorems.Run(s.guest, events).Some? && GuestLoops.Taken(events) <= s.toGuest
    ensures Run(s, OfGuests(events)) ==
            Some(s.(guest := GuestTheorems.Run(s.guest, events).value,
                    toGuest := s.toGuest[|GuestLoops.Taken(events)|..],
                    toHost := s.toHost + GuestLoops.Given(s.guest, events)))
  {
    hide Enabled, Next, G.Enabled, G.Next, GuestLoops.BytesOf, GuestLoops.SentBy;
    if events == [] {
      assert s.toGuest[0..] == s.toGuest && s.toHost + [] == s.toHost;
    } else {
      var front, e := events[..|events| - 1], events[|events| - 1];
      var got, had := GuestLoops.BytesOf(e), GuestLoops.Taken(front);
      GuestRunIsSession(s, front);
      var t := Run(s, OfGuests(front)).value;
      assert GuestLoops.Taken(events) == had + got;
      assert t.toGuest == s.toGuest[|had|..];
      assert got == GuestLoops.Taken(events)[|had|..];
      assert got <= t.toGuest;
      GuestStep(t, e);
      Associative(s.toHost, GuestLoops.Given(s.guest, front), GuestLoops.SentBy(t.guest, e));
      assert s.toGuest[|had|..][|got|..] == s.toGuest[|had + got|..];
      assert OfGuests(events)[..|OfGuests(events)| - 1] == OfGuests(front);
    }
  }
}
