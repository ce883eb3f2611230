/**
 Packets as bytes: a 24-byte little-endian header, then the payload, with the payload's checksum in the
 header. A datagram is accepted exactly when it is such a frame, whatever the receive buffer held before.
 */
module Framing {
  import opened Protocol
  import opened Wrappers
  import opened ShiftRegister
  import opened Crc16
  import opened Crc16Errors

  const MAGIC: U16 := 0x4247
  const VERSION: U8 := 1
  const HEADER_SIZE := 24

  /** Header, payload, timestamp and retransmission counter. */
  const PACKAGE_SIZE := 1064

  datatype Header = Header(
    magic: U16, payloadLen: U16, version: U8, channel: U8, chanFlags: U8, ctrl: U8,
    generation: U16, clientId: U16, checksum: U16, wnd: U16, seqNo: U32, ackNo: U32)

  // ---------- Numbers as bytes ----------

  function Join(low: U8, high: U8): U16 {
    low + 0x100 * high
  }

  lemma JoinSplits(low: U8, high: U8)
    ensures Join(low, high) % 0x100 == low && Join(low, high) / 0x100 == high
  {
  }

  function Join16(low: U16, high: U16): U32 {
    low + 0x1_0000 * high
  }

  lemma Join16Splits(low: U16, high: U16)
    ensures Join16(low, high) % 0x1_0000 == low && Join16(low, high) / 0x1_0000 == high
  {
  }

  function Little16(x: U16): (bytes: seq<U8>)
    ensures |bytes| == 2
  {
    [x % 0x100, x / 0x100]
  }

  function Number16(bytes: seq<U8>, at: nat): U16
    requires at + 2 <= |bytes|
  {
    Join(bytes[at], bytes[at + 1])
  }

  function Little32(x: U32): (bytes: seq<U8>)
    ensures |bytes| == 4
  {
    Little16(x % 0x1_0000) + Little16(x / 0x1_0000)
  }

  function Number32(bytes: seq<U8>, at: nat): U32
    requires at + 4 <= |bytes|
  {
    Join16(Number16(bytes, at), Number16(bytes, at + 2))
  }

  lemma Little16Decodes(x: U16, bytes: seq<U8>, at: nat)
    requires at + 2 <= |bytes| && bytes[at..at + 2] == Little16(x)
    ensures Number16(bytes, at) == x
  {
    assert bytes[at] == bytes[at..at + 2][0] && bytes[at + 1] == bytes[at..at + 2][1];
  }

  lemma Little32Decodes(x: U32, bytes: seq<U8>, at: nat)
    requires at + 4 <= |bytes| && bytes[at..at + 4] == Little32(x)
    ensures Number32(bytes, at) == x
  {
    assert bytes[at..at + 2] == bytes[at..at + 4][..2] && bytes[at + 2..at + 4] == bytes[at..at + 4][2..];
    Little16Decodes(x % 0x1_0000, bytes, at);
    Little16Decodes(x / 0x1_0000, bytes, at + 2);
  }

  lemma Number16Encodes(bytes: seq<U8>, at: nat)
    requires at + 2 <= |bytes|
    ensures Little16(Number16(bytes, at)) == bytes[at..at + 2]
  {
    JoinSplits(bytes[at], bytes[at + 1]);
  }

  lemma Number32Encodes(bytes: seq<U8>, at: nat)
    requires at + 4 <= |bytes|
    ensures Little32(Number32(bytes, at)) == bytes[at..at + 4]
  {
    Number16Encodes(bytes, at);
    Number16Encodes(bytes, at + 2);
    Join16Splits(Number16(bytes, at), Number16(bytes, at + 2));
    assert bytes[at..at + 2] + bytes[at + 2..at + 4] == bytes[at..at + 4];
  }

  // ---------- Headers ----------

  function Encode(h: Header): (bytes: seq<U8>)
    ensures |bytes| == HEADER_SIZE
  {
    Little16(h.magic) + Little16(h.payloadLen)
    + [h.version, h.channel, h.chanFlags, h.ctrl]
    + Little16(h.generation) + Little16(h.clientId) + Little16(h.checksum) + Little16(h.wnd)
    + Little32(h.seqNo) + Little32(h.ackNo)
  }

  function Decode(bytes: seq<U8>): Header
    requires |bytes| >= HEADER_SIZE
  {
    Header(Number16(bytes, 0), Number16(bytes, 2),
           bytes[4], bytes[5], bytes[6], bytes[7],
           Number16(bytes, 8), Number16(bytes, 10), Number16(bytes, 12), Number16(bytes, 14),
           Number32(bytes, 16), Number32(bytes, 20))
  }

  /** Where each field of a header lies. */
  lemma Layout(h: Header, bytes: seq<U8>)
    requires |bytes| >= HEADER_SIZE && bytes[..HEADER_SIZE] == Encode(h)
    ensures bytes[0..2] == Little16(h.magic) && bytes[2..4] == Little16(h.payloadLen)
    ensures bytes[4..8] == [h.version, h.channel, h.chanFlags, h.ctrl]
    ensures bytes[8..10] == Little16(h.generation) && bytes[10..12] == Little16(h.clientId)
    ensures bytes[12..14] == Little16(h.checksum) && bytes[14..16] == Little16(h.wnd)
    ensures bytes[16..20] == Little32(h.seqNo) && bytes[20..24] == Little32(h.ackNo)
  {
    var e := bytes[..HEADER_SIZE];
    assert bytes[0..2] == e[0..2] && bytes[2..4] == e[2..4] && bytes[4..8] == e[4..8] && bytes[8..10] == e[8..10];
    assert bytes[10..12] == e[10..12] && bytes[12..14] == e[12..14] && bytes[14..16] == e[14..16];
    assert bytes[16..20] == e[16..20] && bytes[20..24] == e[20..24];
  }

  /** A header survives its encoding, whatever follows it. */
  lemma DecodeEncode(h: Header, bytes: seq<U8>)
    requires |bytes| >= HEADER_SIZE && bytes[..HEADER_SIZE] == Encode(h)
    ensures Decode(bytes) == h
  {
    Layout(h, bytes);
    Little16Decodes(h.magic, bytes, 0);
    Little16Decodes(h.payloadLen, bytes, 2);
    assert bytes[4] == bytes[4..8][0] && bytes[5] == bytes[4..8][1] && bytes[6] == bytes[4..8][2] && bytes[7] == bytes[4..8][3];
    Little16Decodes(h.generation, bytes, 8);
    Little16Decodes(h.clientId, bytes, 10);
    Little16Decodes(h.checksum, bytes, 12);
    Little16Decodes(h.wnd, bytes, 14);
    Little32Decodes(h.seqNo, bytes, 16);
    Little32Decodes(h.ackNo, bytes, 20);
  }

  /** Every 24 bytes are the encoding of exactly one header. */
  lemma EncodeDecode(bytes: seq<U8>)
    requires |bytes| >= HEADER_SIZE
    ensures Encode(Decode(bytes)) == bytes[..HEADER_SIZE]
  {
    Number16Encodes(bytes, 0);
    Number16Encodes(bytes, 2);
    assert [bytes[4], bytes[5], bytes[6], bytes[7]] == bytes[4..8];
    Number16Encodes(bytes, 8);
    Number16Encodes(bytes, 10);
    Number16Encodes(bytes, 12);
    Number16Encodes(bytes, 14);
    Number32Encodes(bytes, 16);
    Number32Encodes(bytes, 20);
    NineParts(bytes);
  }

  lemma NineParts(b: seq<U8>)
    requires |b| >= HEADER_SIZE
    ensures b[0..2] + b[2..4] + b[4..8] + b[8..10] + b[10..12] + b[12..14] + b[14..16] + b[16..20] + b[20..24] == b[..24]
  {
  }

  // ---------- Frames ----------

  /** The payload as the checksum sees it. */
  function Octets(payload: Payload): (octets: seq<bv8>)
    ensures |octets| == |payload|
  {
    seq(|payload|, i requires 0 <= i < |payload| => payload[i] as bv8)
  }

  function Checksum(payload: Payload): U16 {
    SerialCrc(Octets(payload)) as int
  }

  function Frame(h: Header, payload: Payload): seq<U8> {
    Encode(h.(checksum := Checksum(payload))) + payload
  }

  predicate GoodHeader(h: Header) {
    h.magic == MAGIC && h.version == VERSION && h.payloadLen <= MTU
  }

  /** What the receiver checks of a datagram. */
  predicate Accepted(datagram: seq<U8>) {
    && |datagram| >= HEADER_SIZE
    && var h := Decode(datagram);
       && GoodHeader(h)
       && |datagram| >= HEADER_SIZE + h.payloadLen
       && h.checksum == Checksum(datagram[HEADER_SIZE..HEADER_SIZE + h.payloadLen])
  }

  lemma FrameDecodes(h: Header, payload: Payload, tail: seq<U8>)
    requires h.payloadLen == |payload|
    ensures var d := Frame(h, payload) + tail;
            && Decode(d) == h.(checksum := Checksum(payload))
            && d[HEADER_SIZE..HEADER_SIZE + |payload|] == payload
  {
    var d := Frame(h, payload) + tail;
    assert d[..HEADER_SIZE] == Encode(h.(checksum := Checksum(payload)));
    DecodeEncode(h.(checksum := Checksum(payload)), d);
  }

  /** `d` is a frame with a good header, and perhaps bytes after it. */
  predicate IsFrame(d: seq<U8>, h: Header, payload: Payload, tail: seq<U8>) {
    GoodHeader(h) && h.payloadLen == |payload| && d == Frame(h, payload) + tail
  }

  /** What is accepted is exactly what some sender framed. */
  lemma AcceptedIffFrame(d: seq<U8>)
    ensures Accepted(d) <==> exists h, payload, tail :: IsFrame(d, h, payload, tail)
  {
    if Accepted(d) {
      AcceptedIsFrame(d);
    }
    forall h: Header, payload: Payload, tail: seq<U8> | IsFrame(d, h, payload, tail) ensures Accepted(d) {
      FrameIsAccepted(d, h, payload, tail);
    }
  }

  lemma FrameIsAccepted(d: seq<U8>, h: Header, payload: Payload, tail: seq<U8>)
    requires IsFrame(d, h, payload, tail)
    ensures Accepted(d)
  {
    FrameDecodes(h, payload, tail);
  }

  lemma ThreeParts(d: seq<U8>, n: nat, k: nat)
    requires n <= k <= |d|
    ensures d == d[..n] + d[n..k] + d[k..]
  {
  }

  /** A header that already holds the checksum is framed as it is. */
  lemma FrameOfStamped(h: Header, payload: Payload, header: seq<U8>)
    requires h.checksum == Checksum(payload) && header == Encode(h)
    ensures Frame(h, payload) == header + payload
  {
    assert h.(checksum := Checksum(payload)) == h;
  }

  lemma AcceptedIsFrame(d: seq<U8>)
    requires Accepted(d)
    ensures var h := Decode(d);
            IsFrame(d, h, d[HEADER_SIZE..HEADER_SIZE + h.payloadLen], d[HEADER_SIZE + h.payloadLen..])
  {
    var h := Decode(d);
    EncodeDecode(d);
    FrameOfStamped(h, d[HEADER_SIZE..HEADER_SIZE + h.payloadLen], d[..HEADER_SIZE]);
    ThreeParts(d, HEADER_SIZE, HEADER_SIZE + h.payloadLen);
  }

  // ---------- Sending and reading ----------

  method ComputeChecksum(payload: Payload) returns (checksum: U16)
    ensures checksum == Checksum(payload)
  {
    var crc := Crc16ModbusFast(Octets(payload));
    checksum := crc as int;
  }

  /** Stamps the checksum into the package and returns the bytes given to the socket. */
  method Send(package: array<U8>) returns (datagram: seq<U8>)
    requires package.Length == PACKAGE_SIZE
    requires Decode(package[..]).payloadLen <= MTU
    modifies package
    ensures var h := old(Decode(package[..]));
            var payload := old(package[HEADER_SIZE..HEADER_SIZE + h.payloadLen]);
            && datagram == Frame(h, payload)
            && package[..] == datagram + old(package[HEADER_SIZE + h.payloadLen..])
  {
    ghost var before := package[..];
    ghost var h := Decode(before);
    var len := Number16(package[..], 2);
    var checksum := ComputeChecksum(package[HEADER_SIZE..HEADER_SIZE + len]);
    var bytes := Little16(checksum);
    package[12], package[13] := bytes[0], bytes[1];
    assert before[HEADER_SIZE..HEADER_SIZE + len] == package[HEADER_SIZE..HEADER_SIZE + len];
    Stamped(before, package[..], checksum);
    datagram := package[..HEADER_SIZE + len];
    assert datagram == package[..HEADER_SIZE] + package[HEADER_SIZE..HEADER_SIZE + len];
    assert forall i :: HEADER_SIZE <= i < PACKAGE_SIZE ==> package[..][i] == before[i];
    SplitAt(package[..], before, HEADER_SIZE + len);
  }

  lemma SplitAt(after: seq<U8>, before: seq<U8>, n: nat)
    requires |after| == |before| && n <= |after|
    requires forall i :: n <= i < |after| ==> after[i] == before[i]
    ensures after == after[..n] + before[n..]
  {
  }

  /** Overwriting bytes 12 and 13 changes the checksum field alone. */
  lemma Stamped(before: seq<U8>, after: seq<U8>, checksum: U16)
    requires |before| >= HEADER_SIZE
    requires after == before[12 := Little16(checksum)[0]][13 := Little16(checksum)[1]]
    ensures after[..HEADER_SIZE] == Encode(Decode(before).(checksum := checksum))
  {
    EncodeDecode(after);
    Little16Decodes(checksum, after, 12);
    SameNumbers(before, after);
  }

  lemma SameNumbers(a: seq<U8>, b: seq<U8>)
    requires |a| == |b| >= HEADER_SIZE && a[..12] == b[..12] && a[14..] == b[14..]
    ensures Decode(b) == Decode(a).(checksum := Number16(b, 12))
  {
    assert forall i :: 0 <= i < 12 ==> a[i] == a[..12][i] && b[i] == b[..12][i];
    assert forall i :: 14 <= i < |a| ==> a[i] == a[14..][i - 14] && b[i] == b[14..][i - 14];
  }

  /** What a non-blocking read of the socket can give. */
  datatype Socket = Empty | Failed | Yields(bytes: seq<U8>)

  datatype ReadResult = NoData | Rejected | Read(received: nat)

  function Stored(bytes: seq<U8>): (n: nat)
    ensures n <= |bytes| && n <= PACKAGE_SIZE
  {
    if |bytes| < PACKAGE_SIZE then |bytes| else PACKAGE_SIZE
  }

  /** The buffer after the socket copied a datagram into it: what does not fit is cut, the rest is stale. */
  method CopyIn(package: array<U8>, bytes: seq<U8>) returns (received: nat)
    requires package.Length == PACKAGE_SIZE
    modifies package
    ensures received == Stored(bytes)
    ensures package[..] == bytes[..received] + old(package[received..])
  {
    received := if |bytes| < PACKAGE_SIZE then |bytes| else PACKAGE_SIZE;
    for i := 0 to received
      invariant forall k :: 0 <= k < i ==> package[k] == bytes[k]
      invariant forall k :: i <= k < PACKAGE_SIZE ==> package[k] == old(package[k])
    {
      package[i] := bytes[i];
    }
    assert forall k :: 0 <= k < received ==> package[..][k] == (bytes[..received] + old(package[received..]))[k];
  }

  /**
   Reads one datagram into the package. Whether it is accepted depends on the datagram alone, not on what
   an earlier one left in the buffer; when it is, the package holds its header and its payload.
   */
  method ReadPackage(package: array<U8>, socket: Socket) returns (r: ReadResult)
    requires package.Length == PACKAGE_SIZE
    modifies package
    ensures r.NoData? <==> socket.Empty?
    ensures r.Read? <==> socket.Yields? && Accepted(socket.bytes)
    ensures r.Read? ==>
      var h := Decode(socket.bytes);
      && r.received == Stored(socket.bytes)
      && Decode(package[..]) == h
      && package[HEADER_SIZE..HEADER_SIZE + h.payloadLen] == socket.bytes[HEADER_SIZE..HEADER_SIZE + h.payloadLen]
    ensures !socket.Yields? ==> package[..] == old(package[..])
  {
    match socket {
      case Empty => return NoData;
      case Failed => return Rejected;
      case Yields(bytes) =>
        var received := CopyIn(package, bytes);
        assert package[..received] == bytes[..received];
        if received >= HEADER_SIZE {
          HeaderCopied(package[..], bytes, received);
        }
        if Number16(package[..], 0) != MAGIC || package[4] != VERSION {
          return Rejected;
        }
        var len := Number16(package[..], 2);
        if len > MTU || received < HEADER_SIZE + len {
          return Rejected;
        }
        assert package[HEADER_SIZE..HEADER_SIZE + len] == bytes[HEADER_SIZE..HEADER_SIZE + len];
        var checksum := ComputeChecksum(package[HEADER_SIZE..HEADER_SIZE + len]);
        if Number16(package[..], 12) != checksum {
          return Rejected;
        }
        return Read(received);
    }
  }

  lemma HeaderCopied(package: seq<U8>, bytes: seq<U8>, received: nat)
    requires HEADER_SIZE <= received <= |bytes| && received <= |package|
    requires package[..received] == bytes[..received]
    ensures Decode(package) == Decode(bytes)
  {
    assert forall i :: 0 <= i < HEADER_SIZE ==> package[i] == package[..received][i] && bytes[i] == bytes[..received][i];
  }

  // ---------- Protocol packets ----------

  function ToHeader(p: Packet): Header
    requires |p.payload| <= MTU
  {
    Header(MAGIC, |p.payload|, VERSION, p.channel, 0, p.ctrl, p.connId.generation, p.connId.id, 0xFFFF, 0, p.seqNo, p.ackNo)
  }

  function FromDatagram(d: seq<U8>): Option<Packet> {
    if Accepted(d) then
      var h := Decode(d);
      Some(Packet(h.ctrl, h.channel, ConnId(h.generation, h.clientId), h.seqNo, h.ackNo,
                  d[HEADER_SIZE..HEADER_SIZE + h.payloadLen]))
    else None
  }

  /** The receiver gets the packet the sender framed, also when the network pads the datagram. */
  lemma PacketRoundTrip(p: Packet, tail: seq<U8>)
    requires |p.payload| <= MTU
    ensures FromDatagram(Frame(ToHeader(p), p.payload) + tail) == Some(p)
  {
    FrameDecodes(ToHeader(p), p.payload, tail);
  }

  // ---------- Damaged payloads ----------

  lemma ChecksumsAgreeIff(a: bv16, b: bv16)
    ensures a as int == b as int <==> a == b
  {
    assert a == (a as int) as bv16 && b == (b as int) as bv16;
  }

  /** What arrives when only the payload of a frame was damaged. */
  function Damaged(h: Header, payload: Payload, damaged: Payload): seq<U8> {
    Encode(h.(checksum := Checksum(payload))) + damaged
  }

  /** A payload damaged on the way is accepted exactly when the checksums collide. */
  lemma DamagedAcceptedIff(h: Header, payload: Payload, damaged: Payload)
    requires GoodHeader(h) && h.payloadLen == |payload| == |damaged|
    ensures Accepted(Damaged(h, payload, damaged)) <==> SerialCrc(Octets(damaged)) == SerialCrc(Octets(payload))
  {
    DamagedDecodes(h, payload, damaged);
    ChecksumsAgreeIff(SerialCrc(Octets(payload)), SerialCrc(Octets(damaged)));
  }

  lemma DamagedDecodes(h: Header, payload: Payload, damaged: Payload)
    requires h.payloadLen == |damaged|
    ensures var d := Damaged(h, payload, damaged);
            && Decode(d) == h.(checksum := Checksum(payload))
            && d[HEADER_SIZE..HEADER_SIZE + |damaged|] == damaged
  {
    var d := Damaged(h, payload, damaged);
    var stamped := h.(checksum := Checksum(payload));
    assert d[..HEADER_SIZE] == Encode(stamped);
    DecodeEncode(stamped, d);
  }

  /** Any two flipped bits. */
  lemma TwoFlipsRejected(h: Header, payload: Payload, damaged: Payload, i: nat, j: nat)
    requires GoodHeader(h) && h.payloadLen == |payload| == |damaged| && i < j < 8 * |payload|
    requires forall k :: 0 <= k < 8 * |payload| ==> (Bits(Octets(payload))[k] != Bits(Octets(damaged))[k] <==> k == i || k == j)
    ensures !Accepted(Damaged(h, payload, damaged))
  {
    TwoBitErrorIsDetected(Octets(payload), Octets(damaged), i, j);
    DamagedAcceptedIff(h, payload, damaged);
  }

  /** Any change within sixteen consecutive bits. */
  lemma BurstRejected(h: Header, payload: Payload, damaged: Payload, start: nat)
    requires GoodHeader(h) && h.payloadLen == |payload| == |damaged| && Octets(payload) != Octets(damaged)
    requires forall k :: 0 <= k < 8 * |payload| && !(start <= k < start + 16) ==> Bits(Octets(payload))[k] == Bits(Octets(damaged))[k]
    ensures !Accepted(Damaged(h, payload, damaged))
  {
    BurstIsDetected(Octets(payload), Octets(damaged), start);
    DamagedAcceptedIff(h, payload, damaged);
  }

  /** Any odd number of flipped bits. */
  lemma OddFlipsRejected(h: Header, payload: Payload, damaged: Payload)
    requires GoodHeader(h) && h.payloadLen == |payload| == |damaged|
    requires CountOnes(BitDifference(Octets(payload), Octets(damaged))) % 2 == 1
    ensures !Accepted(Damaged(h, payload, damaged))
  {
    OddErrorIsDetected(Octets(payload), Octets(damaged));
    DamagedAcceptedIff(h, payload, damaged);
  }
}
