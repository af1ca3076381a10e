/**
  * The packet of libvirt-sandbox-rpcpacket.c: a buffer of fixed size, the
  * length in use, and an offset that counts received, encoded or sent bytes.
  */
module RpcPackets {
  import opened Options
  import opened Xdr
  import opened Protocol

  const BUFFER_MAX := PACKET_MAX + LEN_MAX

  /** A header of which only the bytes b are there: the first fields, as far as they go, and then those of h. */
  function PartHeader(h: Header, b: seq<byte>): Header {
    Header(if |b| >= 4 then DecodeI32(b[..4]) else h.proc,
           if |b| >= 8 then DecodeI32(b[4..8]) else h.kind,
           if |b| >= 12 then DecodeI32(b[8..12]) else h.status,
           h.serial)
  }

  class RpcPacket {
    const buffer: array<byte>
    var bufferLength: nat
    var bufferOffset: nat
    var header: Header

    ghost predicate Valid()
      reads this
    {
      buffer.Length == BUFFER_MAX && bufferOffset <= bufferLength <= buffer.Length
    }

    /** The bytes in use. */
    ghost function Contents(): seq<byte>
      requires Valid()
      reads this, buffer
    {
      buffer[..bufferLength]
    }

    /** Everything that the packet is made of. */
    ghost function Repr(): set<object>
    {
      {this, buffer}
    }

    /** gvir_sandbox_rpcpacket_new */
    constructor (rxready: bool)
      ensures Valid() && fresh(buffer)
      ensures bufferOffset == 0 && bufferLength == if rxready then LEN_MAX else 0
    {
      buffer := new byte[BUFFER_MAX](_ => 0);
      bufferLength := if rxready then LEN_MAX else 0;
      bufferOffset := 0;
      header := Header(0, 0, 0, 0);
    }

    /** xdr_u_int at a position of the buffer. */
    method PutU32(at: nat, x: uint32)
      requires at + 4 <= buffer.Length
      modifies buffer
      ensures buffer[..] == old(buffer[..at]) + EncodeU32(x) + old(buffer[at + 4..])
    {
      buffer[at], buffer[at + 1], buffer[at + 2], buffer[at + 3] :=
        x / 0x100_0000, x / 0x1_0000 % 0x100, x / 0x100 % 0x100, x % 0x100;
    }

    method GetU32(at: nat) returns (x: uint32)
      requires at + 4 <= buffer.Length
      ensures x == DecodeU32(buffer[at..at + 4])
    {
      x := DecodeU32(buffer[at..at + 4]);
    }

    /** memcpy into the buffer. */
    method Copy(at: nat, data: seq<byte>)
      requires at + |data| <= buffer.Length
      modifies buffer
      ensures buffer[..] == old(buffer[..at]) + data + old(buffer[at + |data|..])
    {
      forall i | 0 <= i < |data| {
        buffer[at + i] := data[i];
      }
    }

    /**
      * gvir_sandbox_rpcpacket_decode_length.  The announced length is added to
      * the length in use, which fits the buffer if that was a length word.
      */
    method DecodeLength() returns (r: Result<(), Fault>)
      requires Valid()
      modifies this`bufferLength, this`bufferOffset
      ensures old(bufferLength) <= LEN_MAX || r.Err? ==> Valid()
      ensures old(bufferLength) < LEN_MAX ==>
                r == Err(BadLength) && bufferLength == old(bufferLength) && bufferOffset == old(bufferOffset)
      ensures old(bufferLength) >= LEN_MAX ==>
                && bufferOffset == LEN_MAX
                && (r.Ok? <==> Protocol.DecodeLength(buffer[..LEN_MAX]).Ok?)
                && (r.Err? ==>
                      Protocol.DecodeLength(buffer[..LEN_MAX]) == Err(r.error) && bufferLength == old(bufferLength))
                && (r.Ok? ==>
                      Protocol.DecodeLength(buffer[..LEN_MAX]) == Ok(LEN_MAX + bufferLength - old(bufferLength)))
    {
      if bufferLength < 4 {
        return Err(BadLength);
      }
      var len := GetU32(0);
      assert buffer[0..4] == buffer[..LEN_MAX];
      bufferOffset := 4;
      if len < LEN_MAX {
        return Err(BadLength);
      }
      // The length includes the length word.
      len := len - LEN_MAX;
      if len > PACKET_MAX {
        return Err(BadLength);
      }
      bufferLength := bufferLength + len;
      return Ok(());
    }

    /** gvir_sandbox_rpcpacket_decode_header.  Of a header that is too short, the fields that fit are stored. */
    method DecodeHeader() returns (r: Result<(), Fault>)
      requires Valid() && bufferLength >= LEN_MAX
      modifies this`bufferOffset, this`header
      ensures Valid()
      ensures r.Ok? <==> DecodeFrame(Contents()).Some?
      ensures r.Ok? ==> bufferOffset == FRAME_MIN && header == DecodeFrame(Contents()).value.header
                        && buffer[bufferOffset..bufferLength] == DecodeFrame(Contents()).value.payload
      ensures r.Err? ==> r.error == BadHeader && bufferOffset == LEN_MAX
                         && header == PartHeader(old(header), buffer[LEN_MAX..bufferLength])
    {
      bufferOffset := LEN_MAX;
      ghost var all := Contents();
      ghost var part := all[LEN_MAX..];
      assert part == buffer[LEN_MAX..bufferLength];
      var left := bufferLength - bufferOffset;
      if left < 4 {
        return Err(BadHeader);
      }
      header := header.(proc := DecodeI32(buffer[4..8]));
      assert part[..4] == all[4..8] == buffer[4..8];
      if left < 8 {
        return Err(BadHeader);
      }
      header := header.(kind := DecodeI32(buffer[8..12]));
      assert part[4..8] == all[8..12] == buffer[8..12];
      if left < 12 {
        return Err(BadHeader);
      }
      header := header.(status := DecodeI32(buffer[12..16]));
      assert part[8..12] == all[12..16] == buffer[12..16];
      if left < HEADER_MAX {
        return Err(BadHeader);
      }
      header := header.(serial := DecodeU32(buffer[16..20]));
      bufferOffset := bufferOffset + HEADER_MAX;
      ghost var h := all[LEN_MAX..FRAME_MIN];
      assert h[..4] == part[..4] && h[4..8] == part[4..8] && h[8..12] == part[8..12];
      assert h[12..] == all[16..20] == buffer[16..20];
      assert Contents()[FRAME_MIN..] == buffer[bufferOffset..bufferLength];
      return Ok(());
    }

    /** gvir_sandbox_rpcpacket_decode_payload_msg, for the exit message: one int. */
    method DecodePayloadExit() returns (r: Option<int32>)
      requires Valid()
      modifies this`bufferOffset
      ensures Valid()
      ensures var payload := old(buffer[bufferOffset..bufferLength]);
              r == if |payload| < 4 then None else Some(DecodeI32(payload[..4]))
      ensures bufferOffset == old(bufferOffset) + if r.Some? then 4 else 0
    {
      if bufferLength - bufferOffset < 4 {
        return None;
      }
      r := Some(DecodeI32(buffer[bufferOffset..bufferOffset + 4]));
      assert buffer[bufferOffset..bufferLength][..4] == buffer[bufferOffset..bufferOffset + 4];
      bufferOffset := bufferOffset + 4;
    }

    /** gvir_sandbox_rpcpacket_encode_header */
    method EncodeHeader()
      requires buffer.Length == BUFFER_MAX
      modifies this`bufferLength, this`bufferOffset, buffer
      ensures Valid() && bufferLength == BUFFER_MAX && bufferOffset == FRAME_MIN
      ensures buffer[..LEN_MAX] == EncodeU32(FRAME_MIN)
      ensures buffer[LEN_MAX..FRAME_MIN] == Protocol.EncodeHeader(header)
    {
      bufferLength := buffer.Length;
      bufferOffset := 0;
      PutU32(0, 0);
      PutI32(4, header.proc);
      PutI32(8, header.kind);
      PutI32(12, header.status);
      PutU32(16, header.serial);
      assert buffer[4..20] == Protocol.EncodeHeader(header);
      var len := FRAME_MIN;
      PutU32(0, len);
      bufferOffset := bufferOffset + len;
    }

    method PutI32(at: nat, x: int32)
      requires at + 4 <= buffer.Length
      modifies buffer
      ensures buffer[..] == old(buffer[..at]) + EncodeI32(x) + old(buffer[at + 4..])
    {
      PutU32(at, if x < 0 then x + 0x1_0000_0000 else x);
    }

    /** The common end of the encoders: the length word is written again. */
    method FinishEncoding()
      requires Valid() && LEN_MAX <= bufferOffset
      modifies this`bufferLength, this`bufferOffset, buffer
      ensures Valid() && bufferOffset == 0 && bufferLength == old(bufferOffset)
      ensures Contents() == EncodeU32(bufferLength) + old(buffer[LEN_MAX..bufferOffset])
    {
      PutU32(0, bufferOffset);
      bufferLength := bufferOffset;
      bufferOffset := 0;
    }

    /** gvir_sandbox_rpcpacket_encode_payload_raw */
    method EncodePayloadRaw(data: seq<byte>) returns (ok: bool)
      requires Valid() && LEN_MAX <= bufferOffset
      modifies this`bufferLength, this`bufferOffset, buffer
      ensures Valid()
      ensures ok <==> old(bufferOffset) + |data| <= old(bufferLength)
      ensures ok ==> bufferOffset == 0
                     && Contents() == EncodeU32(bufferLength) + old(buffer[LEN_MAX..bufferOffset]) + data
      ensures !ok ==> buffer[..] == old(buffer[..])
                      && bufferLength == old(bufferLength) && bufferOffset == old(bufferOffset)
    {
      if bufferLength - bufferOffset < |data| {
        return false;
      }
      Copy(bufferOffset, data);
      bufferOffset := bufferOffset + |data|;
      assert buffer[LEN_MAX..bufferOffset] == old(buffer[LEN_MAX..bufferOffset]) + data;
      FinishEncoding();
      return true;
    }

    /** gvir_sandbox_rpcpacket_encode_payload_msg, for the exit message: one int. */
    method EncodePayloadExit(status: int32) returns (ok: bool)
      requires Valid() && LEN_MAX <= bufferOffset
      modifies this`bufferLength, this`bufferOffset, buffer
      ensures Valid()
      ensures ok <==> old(bufferOffset) + 4 <= old(bufferLength)
      ensures ok ==> bufferOffset == 0
                     && Contents() == EncodeU32(bufferLength) + old(buffer[LEN_MAX..bufferOffset]) + EncodeI32(status)
      ensures !ok ==> buffer[..] == old(buffer[..])
                      && bufferLength == old(bufferLength) && bufferOffset == old(bufferOffset)
    {
      if bufferLength - bufferOffset < 4 {
        return false;
      }
      PutI32(bufferOffset, status);
      bufferOffset := bufferOffset + 4;
      assert buffer[LEN_MAX..bufferOffset] == old(buffer[LEN_MAX..bufferOffset]) + EncodeI32(status);
      FinishEncoding();
      return true;
    }

    /** gvir_sandbox_rpcpacket_encode_payload_empty */
    method EncodePayloadEmpty()
      requires Valid() && LEN_MAX <= bufferOffset
      modifies this`bufferLength, this`bufferOffset, buffer
      ensures Valid() && bufferOffset == 0 && bufferLength == old(bufferOffset)
      ensures Contents() == EncodeU32(bufferLength) + old(buffer[LEN_MAX..bufferOffset])
    {
      FinishEncoding();
    }

    /** memcpy of a whole packet. */
    method CopyFrom(other: RpcPacket)
      requires buffer.Length == BUFFER_MAX && other.Valid() && buffer != other.buffer
      modifies this, buffer
      ensures Valid() && bufferLength == other.bufferLength && bufferOffset == other.bufferOffset
      ensures buffer[..] == other.buffer[..] && header == other.header
    {
      forall i | 0 <= i < buffer.Length {
        buffer[i] := other.buffer[i];
      }
      bufferLength, bufferOffset, header := other.bufferLength, other.bufferOffset, other.header;
    }

    // The packets that the two programs build.

    /** A handshake byte, without a header. */
    static method BuildByte(b: byte) returns (p: RpcPacket)
      ensures fresh(p.Repr()) && p.Valid() && p.bufferOffset == 0 && p.Contents() == [b]
    {
      p := new RpcPacket(false);
      p.buffer[0] := b;
      p.bufferLength := 1;
    }

    /** Room for one handshake byte. */
    static method AwaitByte() returns (p: RpcPacket)
      ensures fresh(p.Repr()) && p.Valid() && p.bufferOffset == 0 && p.bufferLength == 1
    {
      p := new RpcPacket(false);
      p.bufferLength := 1;
    }

    /** A packet of raw data; data that does not fit is refused. */
    static method BuildRaw(header: Header, data: seq<byte>) returns (p: RpcPacket?)
      ensures p != null <==> Sendable(Message(header, data))
      ensures p != null ==> fresh(p.Repr()) && p.Valid() && p.bufferOffset == 0
                            && p.Contents() == Encode(Message(header, data))
    {
      var pkt := new RpcPacket(false);
      pkt.header := header;
      pkt.EncodeHeader();
      var ok := pkt.EncodePayloadRaw(data);
      p := if ok then pkt else null;
    }

    /** The exit message. */
    static method BuildExit(header: Header, status: int32) returns (p: RpcPacket)
      ensures fresh(p.Repr()) && p.Valid() && p.bufferOffset == 0
      ensures p.Contents() == Encode(Message(header, EncodeI32(status)))
    {
      p := new RpcPacket(false);
      p.header := header;
      p.EncodeHeader();
      var ok := p.EncodePayloadExit(status);
      assert ok;
    }

    /** A message without a payload. */
    static method BuildEmpty(header: Header) returns (p: RpcPacket)
      ensures fresh(p.Repr()) && p.Valid() && p.bufferOffset == 0
      ensures p.Contents() == Encode(Message(header, []))
    {
      p := new RpcPacket(false);
      p.header := header;
      p.EncodeHeader();
      ghost var encoded := Protocol.EncodeHeader(header);
      assert encoded + [] == encoded;
      p.EncodePayloadEmpty();
    }

    /**
      * The two phases in which a receiver reads a packet, length word first,
      * give back the header, the payload and the length of the packet that was
      * built, and use no more of the buffer than there is.
      */
    static method ReadBack(wire: seq<byte>, ghost m: Message) returns (q: RpcPacket)
      requires Sendable(m) && wire == Encode(m)
      ensures fresh(q.Repr()) && q.Valid() && q.Contents() == wire
      ensures q.header == m.header && q.buffer[q.bufferOffset..q.bufferLength] == m.payload
    {
      FrameRoundTrip(m);
      hide Encode, EncodeI32, DecodeFrame, Protocol.DecodeLength;
      q := new RpcPacket(true);
      q.Copy(0, wire[..LEN_MAX]);
      assert q.buffer[..LEN_MAX] == q.buffer[..][..LEN_MAX] == wire[..LEN_MAX];
      q.bufferOffset := LEN_MAX;
      var length := q.DecodeLength();
      assert length.Ok? && q.bufferLength == |wire|;
      q.Copy(LEN_MAX, wire[LEN_MAX..]);
      q.bufferOffset := q.bufferLength;
      assert q.Contents() == q.buffer[..][..|wire|] == wire[..LEN_MAX] + wire[LEN_MAX..] == wire;
      var header := q.DecodeHeader();
    }
  }

  // A packet that may be NULL.

  ghost function PacketRepr(p: RpcPacket?): set<object> {
    if p == null then {} else p.Repr()
  }

  ghost predicate PacketOk(p: RpcPacket?)
    reads p
  {
    p == null || p.Valid()
  }

  /** A packet that is being received. */
  ghost function RxView(p: RpcPacket?): Option<Rx>
    requires PacketOk(p)
    reads p, PacketRepr(p)
  {
    if p == null then None else Some(Rx(p.buffer[..p.bufferOffset], p.bufferLength))
  }

  /** A packet that is being sent. */
  ghost function TxView(p: RpcPacket?): Option<Tx>
    requires PacketOk(p)
    reads p, PacketRepr(p)
  {
    if p == null then None else Some(Tx(p.Contents(), p.bufferOffset))
  }
}
