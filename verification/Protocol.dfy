/**
  * The message layer shared by host and guest: constants and types of
  * libvirt-sandbox-protocol.x, the wire form of one message, and the wire form
  * of a run of messages.
  */
module Protocol {
  import opened Options
  import opened Xdr

  const PACKET_MAX := 262144
  const LEN_MAX := 4
  const HEADER_MAX := 16
  const PAYLOAD_MAX := 262128

  /** The smallest frame: length word and header with an empty payload. */
  const FRAME_MIN := LEN_MAX + HEADER_MAX

  const WAIT: byte := 27
  const SYNC: byte := 28

  const STDIN: int32 := 1
  const STDOUT: int32 := 2
  const STDERR: int32 := 3
  const EXIT: int32 := 4
  const QUIT: int32 := 5

  const MESSAGE: int32 := 0
  const DATA: int32 := 1

  const STATUS_OK: int32 := 0

  datatype Header = Header(proc: int32, kind: int32, status: int32, serial: uint32)

  datatype Message = Message(header: Header, payload: seq<byte>)

  /** Why a peer rejects what it received, or why it gave up. */
  datatype Fault =
    | NoFault
    | IoFault
    | BadHandshakeByte
    | BadLength
    | BadHeader
    | BadStatus
    | BadProc
    | BadExitPayload
    | UnexpectedRx
    | UnexpectedTx
  {
    /** The peer, and not the operating system, is to blame. */
    predicate Protocol?() { this != NoFault && this != IoFault }
  }

  function EncodeHeader(h: Header): (b: seq<byte>)
    ensures |b| == HEADER_MAX
  {
    EncodeI32(h.proc) + EncodeI32(h.kind) + EncodeI32(h.status) + EncodeU32(h.serial)
  }

  function DecodeHeader(b: seq<byte>): Header
    requires |b| == HEADER_MAX
  {
    Header(DecodeI32(b[..4]), DecodeI32(b[4..8]), DecodeI32(b[8..12]), DecodeU32(b[12..]))
  }

  lemma HeaderRoundTrip(h: Header)
    ensures DecodeHeader(EncodeHeader(h)) == h
  {
    I32RoundTrip(h.proc);
    I32RoundTrip(h.kind);
    I32RoundTrip(h.status);
    U32RoundTrip(h.serial);
    var b := EncodeHeader(h);
    assert b[..4] == EncodeI32(h.proc);
    assert b[4..8] == EncodeI32(h.kind);
    assert b[8..12] == EncodeI32(h.status);
    assert b[12..] == EncodeU32(h.serial);
  }

  ghost predicate Sendable(m: Message) {
    |m.payload| <= PAYLOAD_MAX
  }

  /** Length word (which counts itself), header, payload. */
  function Encode(m: Message): (b: seq<byte>)
    requires Sendable(m)
    ensures |b| == FRAME_MIN + |m.payload|
  {
    EncodeU32(FRAME_MIN + |m.payload|) + EncodeHeader(m.header) + m.payload
  }

  /**
    * The total frame length that a length word announces.  The bound is on the
    * bytes still to come, so a total of LEN_MAX + PACKET_MAX is accepted.
    */
  function DecodeLength(word: seq<byte>): (r: Result<nat, Fault>)
    requires |word| == LEN_MAX
    ensures r.Ok? ==> LEN_MAX <= r.value <= LEN_MAX + PACKET_MAX
    ensures r.Err? ==> r.error == BadLength
  {
    var len := DecodeU32(word);
    if len < LEN_MAX then Err(BadLength)
    else if len - LEN_MAX > PACKET_MAX then Err(BadLength)
    else Ok(len)
  }

  /** The lengths that are accepted, as they were encoded: the length word itself and up to PACKET_MAX bytes more. */
  lemma LengthsAccepted(len: uint32)
    ensures DecodeLength(EncodeU32(len)) ==
            if LEN_MAX <= len <= LEN_MAX + PACKET_MAX then Ok(len) else Err(BadLength)
  {
    U32RoundTrip(len);
  }

  /** Header and payload of a completely received frame. */
  function DecodeFrame(frame: seq<byte>): Option<Message> {
    if |frame| < FRAME_MIN then None
    else Some(Message(DecodeHeader(frame[LEN_MAX..FRAME_MIN]), frame[FRAME_MIN..]))
  }

  lemma FrameRoundTrip(m: Message)
    requires Sendable(m)
    ensures DecodeLength(Encode(m)[..LEN_MAX]) == Ok(|Encode(m)|)
    ensures DecodeFrame(Encode(m)) == Some(m)
  {
    var b := Encode(m);
    assert b[..LEN_MAX] == EncodeU32(FRAME_MIN + |m.payload|);
    U32RoundTrip(FRAME_MIN + |m.payload|);
    assert b[LEN_MAX..FRAME_MIN] == EncodeHeader(m.header);
    HeaderRoundTrip(m.header);
    assert b[FRAME_MIN..] == m.payload;
  }

  // The five messages that the two programs build.

  function StdinMessage(data: seq<byte>, serial: uint32): Message {
    Message(Header(STDIN, DATA, STATUS_OK, serial), data)
  }

  function StdoutMessage(data: seq<byte>, serial: uint32): Message {
    Message(Header(STDOUT, DATA, STATUS_OK, serial), data)
  }

  function StderrMessage(data: seq<byte>, serial: uint32): Message {
    Message(Header(STDERR, DATA, STATUS_OK, serial), data)
  }

  function ExitMessage(status: int32, serial: uint32): Message {
    Message(Header(EXIT, MESSAGE, STATUS_OK, serial), EncodeI32(status))
  }

  function QuitMessage(serial: uint32): Message {
    Message(Header(QUIT, DATA, STATUS_OK, serial), [])
  }

  // Runs of messages.

  ghost predicate AllSendable(ms: seq<Message>) {
    forall i :: 0 <= i < |ms| ==> Sendable(ms[i])
  }

  /** The bytes of the messages ms, one after the other. */
  ghost function Wire(ms: seq<Message>): seq<byte>
    requires AllSendable(ms)
  {
    if ms == [] then [] else Encode(ms[0]) + Wire(ms[1..])
  }

  lemma Associative<T>(a: seq<T>, b: seq<T>, c: seq<T>)
    ensures (a + b) + c == a + (b + c)
  {
  }

  lemma {:induction false} WireAppend(ms: seq<Message>, m: Message)
    requires AllSendable(ms) && Sendable(m)
    ensures AllSendable(ms + [m])
    ensures Wire(ms + [m]) == Wire(ms) + Encode(m)
  {
    var all := ms + [m];
    if ms == [] {
      assert all == [m] && all[1..] == [];
    } else {
      WireAppend(ms[1..], m);
      assert all[0] == ms[0] && all[1..] == ms[1..] + [m];
      Associative(Encode(ms[0]), Wire(ms[1..]), Encode(m));
    }
  }

  /** The payloads of the messages of one procedure, in order. */
  ghost function PayloadOf(ms: seq<Message>, proc: int32): seq<byte> {
    if ms == [] then []
    else
      var front := PayloadOf(ms[..|ms| - 1], proc);
      var m := ms[|ms| - 1];
      if m.header.proc == proc then front + m.payload else front
  }

  lemma PayloadAppend(ms: seq<Message>, m: Message, proc: int32)
    ensures m.header.proc == proc ==> PayloadOf(ms + [m], proc) == PayloadOf(ms, proc) + m.payload
    ensures m.header.proc != proc ==> PayloadOf(ms + [m], proc) == PayloadOf(ms, proc)
  {
    assert (ms + [m])[..|ms|] == ms;
  }

  lemma {:induction false} PayloadPrefix(ms: seq<Message>, all: seq<Message>, proc: int32)
    requires ms <= all
    ensures PayloadOf(ms, proc) <= PayloadOf(all, proc)
  {
    if ms != all {
      var front := all[..|all| - 1];
      assert ms <= front;
      PayloadPrefix(ms, front, proc);
    }
  }

  /**
    * A complete frame at the head of the bytes in flight is the first pending
    * message, and removing it leaves the bytes of the others.
    */
  lemma HeadFrame(flight: seq<byte>, pending: seq<Message>)
    requires AllSendable(pending) && flight <= Wire(pending) && |flight| >= LEN_MAX
    ensures pending != []
    ensures flight[..LEN_MAX] == Encode(pending[0])[..LEN_MAX]
    ensures |flight| >= |Encode(pending[0])| ==>
              var n := |Encode(pending[0])|;
              flight[..n] == Encode(pending[0]) && flight[n..] <= Wire(pending[1..]) &&
              (flight == Wire(pending) ==> flight[n..] == Wire(pending[1..]))
  {
    var w := Wire(pending);
    var n := |Encode(pending[0])|;
    assert w[..n] == Encode(pending[0]);
    assert w[n..] == Wire(pending[1..]);
    assert flight == w[..|flight|];
    if |flight| >= n {
      assert flight[n..] == w[n..][..|flight| - n];
    }
  }

  // Packets being received and sent.

  /** Bytes received so far (bufferOffset of them) and how many are awaited in all. */
  datatype Rx = Rx(data: seq<byte>, length: nat)

  /** A complete packet, of which `offset` bytes are sent. */
  datatype Tx = Tx(wire: seq<byte>, offset: nat)

  function RxData(rx: Option<Rx>): seq<byte> {
    if rx.Some? then rx.value.data else []
  }

  function TxRest(tx: Option<Tx>): seq<byte> {
    if tx.Some? && tx.value.offset <= |tx.value.wire| then tx.value.wire[tx.value.offset..] else []
  }

  /** Room for one handshake byte. */
  const OneByte := Rx([], 1)

  /** Room for the length word that starts a frame. */
  const LengthWord := Rx([], LEN_MAX)

  /** A packet on its way out has something left to send. */
  predicate TxOpen(tx: Tx) {
    tx.offset < |tx.wire|
  }

  /**
    * Room for a frame: first for its length word, then for the length that the
    * word announced.  A word that announces only itself leaves a packet that
    * is full before anything is read (length LEN_MAX, all of it received).
    */
  predicate FrameRoom(rx: Rx) {
    && |rx.data| <= rx.length <= LEN_MAX + PACKET_MAX
    && LEN_MAX <= rx.length
    && (|rx.data| < LEN_MAX ==> rx.length == LEN_MAX)
    && (|rx.data| >= LEN_MAX ==> DecodeLength(rx.data[..LEN_MAX]) == Ok(rx.length))
    && (|rx.data| == rx.length ==> rx.length == LEN_MAX)
  }
}
