/**
  * Bytes in flight.  One direction of the connection is a sequence of messages
  * put in (`sent`), of which the peer has dispatched the first ones
  * (`received`); the bytes of the others are in flight: first what the peer's
  * rx packet holds, then the channel, then what is left of tx.
  */
module Flow {
  import opened Xdr
  import opened Options
  import opened Protocol

  ghost predicate Queue(received: seq<Message>, sent: seq<Message>, flight: seq<byte>, exact: bool) {
    && AllSendable(sent)
    && received <= sent
    && flight <= Wire(sent[|received|..])
    && (exact ==> flight == Wire(sent[|received|..]))
  }

  lemma QueuePost(received: seq<Message>, sent: seq<Message>, flight: seq<byte>, m: Message)
    requires Queue(received, sent, flight, true) && Sendable(m)
    ensures Queue(received, sent + [m], flight + Encode(m), true)
  {
    WireAppend(sent[|received|..], m);
    assert (sent + [m])[|received|..] == sent[|received|..] + [m];
  }

  lemma QueueWithdraw(received: seq<Message>, sent: seq<Message>, flight: seq<byte>)
    requires sent != [] && Sendable(sent[|sent| - 1])
    requires Queue(received, sent, flight + Encode(sent[|sent| - 1]), true)
    ensures Queue(received, sent[..|sent| - 1], flight, true)
  {
    var m := sent[|sent| - 1];
    var rest := sent[|received|..];
    assert |Wire(rest)| == |flight| + |Encode(m)|;
    assert rest != [];
    var front := rest[..|rest| - 1];
    assert rest == front + [m];
    WireAppend(front, m);
    assert sent[..|sent| - 1][|received|..] == front;
    assert flight == (flight + Encode(m))[..|flight|];
    assert Wire(front) == (Wire(front) + Encode(m))[..|Wire(front)|];
  }

  lemma QueueTruncate(received: seq<Message>, sent: seq<Message>, flight: seq<byte>, exact: bool, less: seq<byte>)
    requires Queue(received, sent, flight, exact) && less <= flight
    ensures Queue(received, sent, less, false)
  {
  }

  /** The length word at the head is that of the next message. */
  lemma QueueLength(received: seq<Message>, sent: seq<Message>, flight: seq<byte>, exact: bool, word: seq<byte>)
    requires Queue(received, sent, flight, exact) && |word| == LEN_MAX && word <= flight
    ensures |received| < |sent|
    ensures DecodeLength(word) == Ok(|Encode(sent[|received|])|)
  {
    HeadFrame(flight, sent[|received|..]);
    FrameRoundTrip(sent[|received|]);
    assert word == flight[..LEN_MAX];
  }

  /** A complete frame at the head is the next message. */
  lemma QueueTake(received: seq<Message>, sent: seq<Message>, flight: seq<byte>, exact: bool,
                  frame: seq<byte>, rest: seq<byte>)
    requires Queue(received, sent, flight, exact) && flight == frame + rest
    requires |frame| >= LEN_MAX && DecodeLength(frame[..LEN_MAX]) == Ok(|frame|)
    ensures |received| < |sent|
    ensures DecodeFrame(frame) == Some(sent[|received|])
    ensures Queue(received + [sent[|received|]], sent, rest, exact)
  {
    var m := sent[|received|..][0];
    assert frame[..LEN_MAX] == flight[..LEN_MAX];
    QueueLength(received, sent, flight, exact, frame[..LEN_MAX]);
    HeadFrame(flight, sent[|received|..]);
    FrameRoundTrip(sent[|received|]);
    assert |frame| == |Encode(sent[|received|])|;
    assert flight[..|frame|] == frame && flight[|frame|..] == rest;
    assert sent[|received|..][1..] == sent[|received| + 1..];
    assert received + [sent[|received|]] == sent[..|received| + 1];
  }

  /** A frame in reception is never longer than the bytes in flight will fill. */
  lemma QueueRoom(received: seq<Message>, sent: seq<Message>, flight: seq<byte>, exact: bool,
                  rx: Rx, rest: seq<byte>)
    requires Queue(received, sent, flight, exact) && flight == rx.data + rest && FrameRoom(rx)
    ensures |rx.data| >= LEN_MAX ==> |received| < |sent| && rx.length == |Encode(sent[|received|])|
    ensures |rx.data| < rx.length
  {
    if |rx.data| >= LEN_MAX {
      QueueLength(received, sent, flight, exact, rx.data[..LEN_MAX]);
    }
  }

  // The handshake bytes that lead the stream to the guest.

  predicate AllWait(x: seq<byte>) {
    forall i :: 0 <= i < |x| ==> x[i] == WAIT
  }

  predicate NoSync(x: seq<byte>) {
    forall i :: 0 <= i < |x| ==> x[i] != SYNC
  }

  /** Some WAIT bytes, one SYNC byte, and then exactly `tail`. */
  predicate Lead(x: seq<byte>, tail: seq<byte>) {
    var k := |x| - |tail| - 1;
    k >= 0 && AllWait(x[..k]) && x[k] == SYNC && x[k + 1..] == tail
  }

  /** A prefix of such bytes. */
  predicate LeadPrefix(x: seq<byte>, tail: seq<byte>) {
    x == [] || (x[0] == WAIT && LeadPrefix(x[1..], tail)) || (x[0] == SYNC && x[1..] <= tail)
  }

  lemma {:induction false} LeadIsLeadPrefix(x: seq<byte>, tail: seq<byte>, less: seq<byte>)
    requires Lead(x, tail) && less <= x
    ensures LeadPrefix(less, tail)
  {
    if less != [] {
      if x[0] == WAIT {
        assert |x| - |tail| - 1 > 0;
        assert x[1..][..|x| - |tail| - 2] == x[..|x| - |tail| - 1][1..];
        LeadIsLeadPrefix(x[1..], tail, less[1..]);
      } else {
        assert |x| - |tail| - 1 == 0;
      }
    }
  }

  lemma {:induction false} AllWaitIsLeadPrefix(x: seq<byte>, tail: seq<byte>)
    requires AllWait(x)
    ensures LeadPrefix(x, tail)
  {
    if x != [] {
      AllWaitIsLeadPrefix(x[1..], tail);
    }
  }

  lemma LeadAppend(x: seq<byte>, tail: seq<byte>, more: seq<byte>)
    requires Lead(x, tail)
    ensures Lead(x + more, tail + more)
  {
    var k := |x| - |tail| - 1;
    assert (x + more)[..k] == x[..k];
    assert (x + more)[k + 1..] == x[k + 1..] + more;
  }

  lemma LeadWithdraw(x: seq<byte>, tail: seq<byte>, more: seq<byte>)
    requires Lead(x + more, tail + more)
    ensures Lead(x, tail)
  {
    var k := |x| - |tail| - 1;
    var all := x + more;
    assert all[k + 1..] == tail + more;
    assert k >= 0;
    assert x[..k] == all[..k];
    assert x[k] == all[k];
    assert x[k + 1..] == all[k + 1..][..|tail|];
  }

  lemma LeadTakeWait(x: seq<byte>, tail: seq<byte>)
    requires Lead(x, tail) && x[0] == WAIT
    ensures Lead(x[1..], tail)
  {
    var k := |x| - |tail| - 1;
    assert k > 0;
    assert x[1..][..k - 1] == x[..k][1..];
    assert x[1..][k..] == x[k + 1..];
  }
}
