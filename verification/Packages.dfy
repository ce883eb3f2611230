/**
 A channel as the library keeps it: two rings of packages in byte pools, edited through pointers into them.
 Everything that happens to it is one of the moves of a channel of packets.
 */
module Packages {
  import opened Wrappers
  import opened Protocol
  import opened Framing
  import opened Endpoint
  import R = RingQueue
  import opened Slots

  /** Where the timestamp and the retransmission counter of a package lie. */
  const TIMESTAMP_AT := 1048
  const RETRANSMITS_AT := 1056

  // ---------- 64-bit numbers ----------

  function Join32(low: U32, high: U32): U64 {
    low + 0x1_0000_0000 * high
  }

  function Little64(x: U64): (bytes: seq<U8>)
    ensures |bytes| == 8
  {
    Little32(x % 0x1_0000_0000) + Little32(x / 0x1_0000_0000)
  }

  function Number64(bytes: seq<U8>, at: nat): U64
    requires at + 8 <= |bytes|
  {
    Join32(Number32(bytes, at), Number32(bytes, at + 4))
  }

  lemma Little64Decodes(x: U64, bytes: seq<U8>, at: nat)
    requires at + 8 <= |bytes| && bytes[at..at + 8] == Little64(x)
    ensures Number64(bytes, at) == x
  {
    assert bytes[at..at + 4] == bytes[at..at + 8][..4] && bytes[at + 4..at + 8] == bytes[at..at + 8][4..];
    Little32Decodes(x % 0x1_0000_0000, bytes, at);
    Little32Decodes(x / 0x1_0000_0000, bytes, at + 4);
  }

  /** A number depends on its own bytes only. */
  lemma NumberOfSlice32(a: seq<U8>, i: nat)
    requires i + 4 <= |a|
    ensures Number32(a[i..i + 4], 0) == Number32(a, i)
  {
    var s := a[i..i + 4];
    assert s[0] == a[i] && s[1] == a[i + 1] && s[2] == a[i + 2] && s[3] == a[i + 3];
  }

  lemma NumberOfSlice64(a: seq<U8>, i: nat)
    requires i + 8 <= |a|
    ensures Number64(a[i..i + 8], 0) == Number64(a, i)
  {
    var s := a[i..i + 8];
    NumberOfSlice32(a, i);
    NumberOfSlice32(a, i + 4);
    NumberOfSlice32(s, 0);
    NumberOfSlice32(s, 4);
    assert s[0..0 + 4] == a[i..i + 4] && s[4..4 + 4] == a[i + 4..i + 4 + 4];
  }

  lemma SliceOfSlice(a: seq<U8>, i: nat, n: nat, at: nat, m: nat)
    requires i + n <= |a| && at + m <= n
    ensures a[i..i + n][at..at + m] == a[i + at..i + at + m]
  {
    var x, y := a[i..i + n][at..at + m], a[i + at..i + at + m];
    assert |x| == |y| && forall k :: 0 <= k < m ==> x[k] == y[k];
  }

  /** An edit leaves what comes after it. */
  lemma OverwriteBefore(b: seq<U8>, at: nat, bytes: seq<U8>, from: nat, to: nat)
    requires at + |bytes| <= from <= to <= |b|
    ensures R.Overwrite(b, at, bytes)[from..to] == b[from..to]
  {
    var rest := b[at + |bytes|..];
    assert R.Overwrite(b, at, bytes) == (b[..at] + bytes) + rest;
    forall k | 0 <= k < to - from ensures R.Overwrite(b, at, bytes)[from..to][k] == b[from..to][k] {
    }
  }

  // ---------- Packages ----------

  predicate Packed(b: seq<U8>) {
    |b| == PACKAGE_SIZE && GoodHeader(Decode(b))
  }

  /** The entry a package stands for. */
  function EntryOf(b: seq<U8>): Entry
    requires Packed(b)
  {
    var h := Decode(b);
    Entry(Packet(h.ctrl, h.channel, ConnId(h.generation, h.clientId), h.seqNo, h.ackNo,
                 b[HEADER_SIZE..HEADER_SIZE + h.payloadLen]),
          Number64(b, TIMESTAMP_AT), Number64(b, RETRANSMITS_AT))
  }

  /** The package, with whatever the memory behind the payload held. */
  function PackageFor(p: Packet, stale: seq<U8>, timestamp: U64): (b: seq<U8>)
    requires |p.payload| + |stale| == MTU
    ensures |b| == PACKAGE_SIZE
  {
    Encode(ToHeader(p)) + p.payload + stale + Little64(timestamp) + Little64(0)
  }

  lemma PackageParts(p: Packet, stale: seq<U8>, timestamp: U64)
    requires |p.payload| + |stale| == MTU
    ensures var b := PackageFor(p, stale, timestamp);
            && b[..HEADER_SIZE] == Encode(ToHeader(p)) && b[HEADER_SIZE..HEADER_SIZE + |p.payload|] == p.payload
            && b[TIMESTAMP_AT..TIMESTAMP_AT + 8] == Little64(timestamp) && b[RETRANSMITS_AT..RETRANSMITS_AT + 8] == Little64(0)
  {
  }

  /** Packing loses nothing. */
  lemma EntryOfPackage(p: Packet, stale: seq<U8>, timestamp: U64)
    requires |p.payload| + |stale| == MTU
    ensures var b := PackageFor(p, stale, timestamp); Packed(b) && EntryOf(b) == Entry(p, timestamp, 0)
  {
    var b := PackageFor(p, stale, timestamp);
    PackageParts(p, stale, timestamp);
    DecodeEncode(ToHeader(p), b);
    Little64Decodes(timestamp, b, TIMESTAMP_AT);
    Little64Decodes(0, b, RETRANSMITS_AT);
  }

  /** The bytes behind the checksum field are the same. */
  ghost predicate SameButChecksum(a: seq<U8>, b: seq<U8>, to: nat) {
    && |a| == |b| == PACKAGE_SIZE && HEADER_SIZE <= to <= PACKAGE_SIZE
    && forall i :: 0 <= i < to && i != 12 && i != 13 ==> a[i] == b[i]
  }

  lemma SameHeader(a: seq<U8>, b: seq<U8>, to: nat)
    requires SameButChecksum(a, b, to)
    ensures Decode(b) == Decode(a).(checksum := Number16(b, 12))
  {
  }

  /** The checksum field is not part of the entry. */
  lemma SamePacket(a: seq<U8>, b: seq<U8>)
    requires Packed(a) && SameButChecksum(a, b, TIMESTAMP_AT)
    ensures Packed(b) && EntryOf(b).packet == EntryOf(a).packet
  {
    SameHeader(a, b, TIMESTAMP_AT);
    assert b[HEADER_SIZE..HEADER_SIZE + Decode(a).payloadLen] == a[HEADER_SIZE..HEADER_SIZE + Decode(a).payloadLen];
  }

  lemma SameField(a: seq<U8>, b: seq<U8>, at: nat)
    requires at + 8 <= |a| && at + 8 <= |b| && a[at..at + 8] == b[at..at + 8]
    ensures Number64(a, at) == Number64(b, at)
  {
    NumberOfSlice64(a, at);
    NumberOfSlice64(b, at);
  }

  lemma EditTimestamp(b: seq<U8>, t: U64)
    requires Packed(b)
    ensures var b' := R.Overwrite(b, TIMESTAMP_AT, Little64(t)); Packed(b') && EntryOf(b') == EntryOf(b).(timestamp := t)
  {
    var b' := R.Overwrite(b, TIMESTAMP_AT, Little64(t));
    SamePacket(b, b');
    assert b'[TIMESTAMP_AT..TIMESTAMP_AT + 8] == Little64(t);
    Little64Decodes(t, b', TIMESTAMP_AT);
    SameField(b, b', RETRANSMITS_AT);
  }

  lemma EditRetransmits(b: seq<U8>, n: U64)
    requires Packed(b)
    ensures var b' := R.Overwrite(b, RETRANSMITS_AT, Little64(n)); Packed(b') && EntryOf(b') == EntryOf(b).(retransmits := n)
  {
    var b' := R.Overwrite(b, RETRANSMITS_AT, Little64(n));
    SamePacket(b, b');
    assert b'[RETRANSMITS_AT..RETRANSMITS_AT + 8] == Little64(n);
    Little64Decodes(n, b', RETRANSMITS_AT);
    SameField(b, b', TIMESTAMP_AT);
  }

  ghost function Stamp(b: seq<U8>): (r: seq<U8>)
    requires Packed(b)
    ensures |r| == PACKAGE_SIZE
  {
    R.Overwrite(b, 12, Little16(Checksum(EntryOf(b).packet.payload)))
  }

  /** Stamping the checksum leaves the entry. */
  lemma StampKeepsEntry(b: seq<U8>)
    requires Packed(b)
    ensures Packed(Stamp(b)) && EntryOf(Stamp(b)) == EntryOf(b)
  {
    SamePacket(b, Stamp(b));
    var stamp := Little16(Checksum(EntryOf(b).packet.payload));
    OverwriteBefore(b, 12, stamp, TIMESTAMP_AT, TIMESTAMP_AT + 8);
    OverwriteBefore(b, 12, stamp, RETRANSMITS_AT, RETRANSMITS_AT + 8);
    SameField(b, Stamp(b), TIMESTAMP_AT);
    SameField(b, Stamp(b), RETRANSMITS_AT);
  }

  /** And makes the front of the package a frame. */
  lemma StampMakesFrame(b: seq<U8>)
    requires Packed(b)
    ensures Stamp(b)[..HEADER_SIZE + Decode(b).payloadLen] == Frame(Decode(b), EntryOf(b).packet.payload)
  {
    var payload, len, b' := EntryOf(b).packet.payload, Decode(b).payloadLen, Stamp(b);
    SameHeader(b, b', TIMESTAMP_AT);
    StampedField(b, Little16(Checksum(payload)));
    Little16Decodes(Checksum(payload), b', 12);
    EncodeDecode(b');
    StampKeepsEntry(b);
    FrontOf(b', len);
  }

  /** The datagram is accepted as the packet, whatever follows it. */
  ghost predicate ReadAs(wire: seq<U8>, p: Packet) {
    forall tail: seq<U8> :: FromDatagram(wire + tail) == Some(p)
  }

  lemma PackageIsRead(b: seq<U8>)
    requires Packed(b)
    ensures ReadAs(Frame(Decode(b), EntryOf(b).packet.payload), EntryOf(b).packet)
  {
    var wire, p := Frame(Decode(b), EntryOf(b).packet.payload), EntryOf(b).packet;
    forall tail: seq<U8> ensures FromDatagram(wire + tail) == Some(p) {
      FrameDecodes(Decode(b), p.payload, tail);
    }
  }

  lemma StampedField(b: seq<U8>, bytes: seq<U8>)
    requires |b| == PACKAGE_SIZE && |bytes| == 2
    ensures R.Overwrite(b, 12, bytes)[12..14] == bytes
  {
  }

  lemma FrontOf(b: seq<U8>, len: nat)
    requires HEADER_SIZE + len <= |b|
    ensures b[..HEADER_SIZE + len] == b[..HEADER_SIZE] + b[HEADER_SIZE..HEADER_SIZE + len]
  {
  }

  // ---------- Queues of packages ----------

  ghost predicate AllPacked(contents: seq<R.Element>) {
    forall i :: 0 <= i < |contents| ==> Packed(contents[i])
  }

  ghost function Entries(contents: seq<R.Element>): (r: seq<Entry>)
    requires AllPacked(contents)
    ensures |r| == |contents|
  {
    seq(|contents|, i requires 0 <= i < |contents| => EntryOf(contents[i]))
  }

  ghost function PacketsOf(contents: seq<R.Element>): (r: seq<Packet>)
    requires AllPacked(contents)
    ensures |r| == |contents|
  {
    seq(|contents|, i requires 0 <= i < |contents| => EntryOf(contents[i]).packet)
  }

  ghost predicate PackageQueue(q: R.Queue)
    reads q, q.pool
  {
    q.Valid() && q.elementSize == PACKAGE_SIZE && q.capacity == QUEUE_CAPACITY && AllPacked(q.Contents())
  }

  method PushPackage(q: R.Queue, package: seq<U8>) returns (ok: bool)
    requires PackageQueue(q) && Packed(package)
    modifies q`length, q.pool
    ensures PackageQueue(q) && (ok <==> |old(q.Contents())| < QUEUE_CAPACITY)
    ensures q.Contents() == if ok then old(q.Contents()) + [package] else old(q.Contents())
  {
    var status := q.Push(Some(package));
    ok := status.Success?;
  }

  method PopPackage(q: R.Queue) returns (package: seq<U8>)
    requires PackageQueue(q) && q.Contents() != []
    modifies q`head, q`length
    ensures PackageQueue(q) && q.Contents() == old(q.Contents())[1..] && package == old(q.Contents())[0]
  {
    ghost var before := q.Contents();
    var status;
    status, package := q.Pop();
    assert before == [package] + q.Contents();
    assert q.Contents() == before[1..];
  }

  /** An edit of the head element; `edited` is what it becomes. */
  method EditHead(q: R.Queue, pointer: nat, at: nat, bytes: seq<U8>, ghost edited: seq<U8>)
    requires PackageQueue(q) && q.Live(pointer) && at + |bytes| <= PACKAGE_SIZE && q.Contents() != []
    requires edited == R.Overwrite(q.Contents()[0], at, bytes) && Packed(edited)
    modifies q.pool
    ensures PackageQueue(q) && q.Live(pointer) && q.Contents() == old(q.Contents())[0 := edited]
  {
    q.WriteThrough(pointer, at, bytes);
  }

  /** The head lies at `pointer` in the pool. */
  ghost predicate HeadAt(q: R.Queue, pointer: nat)
    reads q, q.pool
  {
    && PackageQueue(q) && q.Contents() != [] && pointer + PACKAGE_SIZE <= q.pool.Length
    && q.pool[pointer..pointer + PACKAGE_SIZE] == q.Contents()[0]
  }

  /** A field of the head, read through the pointer. */
  method ReadNumber64(q: R.Queue, pointer: nat, at: nat) returns (x: U64)
    requires HeadAt(q, pointer) && at + 8 <= PACKAGE_SIZE
    ensures x == Number64(q.Contents()[0], at)
  {
    x := Number64(q.pool[pointer + at..pointer + at + 8], 0);
    SliceOfSlice(q.pool[..], pointer, PACKAGE_SIZE, at, 8);
    NumberOfSlice64(q.Contents()[0], at);
  }

  method ReadNumber32(q: R.Queue, pointer: nat, at: nat) returns (x: U32)
    requires HeadAt(q, pointer) && at + 4 <= PACKAGE_SIZE
    ensures x == Number32(q.Contents()[0], at)
  {
    x := Number32(q.pool[pointer + at..pointer + at + 4], 0);
    SliceOfSlice(q.pool[..], pointer, PACKAGE_SIZE, at, 4);
    NumberOfSlice32(q.Contents()[0], at);
  }

  // ---------- Transmission ----------

  method ChecksumOf(package: seq<U8>) returns (checksum: U16)
    requires Packed(package)
    ensures checksum == Checksum(EntryOf(package).packet.payload)
  {
    checksum := ComputeChecksum(package[HEADER_SIZE..HEADER_SIZE + Decode(package).payloadLen]);
  }

  method StampHead(q: R.Queue, pointer: nat, package: seq<U8>)
    requires PackageQueue(q) && q.Live(pointer) && q.Contents() != [] && package == q.Contents()[0]
    modifies q.pool
    ensures PackageQueue(q) && q.Live(pointer) && q.Contents() == old(q.Contents())[0 := Stamp(package)]
  {
    var checksum := ChecksumOf(package);
    StampKeepsEntry(package);
    EditHead(q, pointer, 12, Little16(checksum), Stamp(package));
  }

  /** glbio_send on the head: stamps its checksum in the pool and gives the socket its front. */
  method SendHead(q: R.Queue, pointer: nat) returns (wire: seq<U8>)
    requires PackageQueue(q) && q.Live(pointer) && q.Contents() != []
    modifies q.pool
    ensures PackageQueue(q) && q.Live(pointer) && q.Contents() != [] && Entries(q.Contents()) == Entries(old(q.Contents()))
    ensures ReadAs(wire, Entries(old(q.Contents()))[0].packet)
  {
    q.LiveHoldsHead(pointer);
    var package := q.pool[pointer..pointer + PACKAGE_SIZE];
    StampKeepsEntry(package);
    StampMakesFrame(package);
    PackageIsRead(package);
    EntriesUpdate(q.Contents(), Stamp(package));
    StampHead(q, pointer, package);
    q.LiveHoldsHead(pointer);
    wire := q.pool[pointer..pointer + PACKAGE_SIZE][..HEADER_SIZE + Decode(package).payloadLen];
  }

  lemma EntriesUpdate(contents: seq<R.Element>, b: seq<U8>)
    requires contents != [] && AllPacked(contents) && Packed(b)
    ensures AllPacked(contents[0 := b]) && Entries(contents[0 := b]) == Entries(contents)[0 := EntryOf(b)]
  {
  }

  lemma EntriesDrop(contents: seq<R.Element>)
    requires contents != [] && AllPacked(contents)
    ensures AllPacked(contents[1..]) && Entries(contents[1..]) == Entries(contents)[1..]
    ensures PacketsOf(contents[1..]) == PacketsOf(contents)[1..]
  {
    var rest := contents[1..];
    assert forall i :: 0 <= i < |rest| ==> rest[i] == contents[i + 1];
    forall i | 0 <= i < |rest| ensures Entries(rest)[i] == Entries(contents)[1..][i] {
    }
    forall i | 0 <= i < |rest| ensures PacketsOf(rest)[i] == PacketsOf(contents)[1..][i] {
    }
  }

  lemma EntriesSnoc(contents: seq<R.Element>, b: seq<U8>)
    requires AllPacked(contents) && Packed(b)
    ensures AllPacked(contents + [b]) && Entries(contents + [b]) == Entries(contents) + [EntryOf(b)]
    ensures PacketsOf(contents + [b]) == PacketsOf(contents) + [EntryOf(b).packet]
  {
    var more := contents + [b];
    forall i | 0 <= i < |more| ensures Entries(more)[i] == (Entries(contents) + [EntryOf(b)])[i] {
    }
    forall i | 0 <= i < |more| ensures PacketsOf(more)[i] == (PacketsOf(contents) + [EntryOf(b).packet])[i] {
    }
  }

  // Below, a ghost `entries` is what the queue holds.
  method SetTimestamp(q: R.Queue, pointer: nat, t: U64, ghost entries: seq<Entry>)
    requires PackageQueue(q) && q.Live(pointer) && q.Contents() != [] && entries == Entries(q.Contents())
    modifies q.pool
    ensures PackageQueue(q) && q.Live(pointer) && q.Contents() != []
    ensures Entries(q.Contents()) == Redated(entries, t)
  {
    ghost var edited := R.Overwrite(q.Contents()[0], TIMESTAMP_AT, Little64(t));
    EditTimestamp(q.Contents()[0], t);
    EntriesUpdate(q.Contents(), edited);
    EditHead(q, pointer, TIMESTAMP_AT, Little64(t), edited);
  }

  method SetRetransmits(q: R.Queue, pointer: nat, n: U64, ghost entries: seq<Entry>)
    requires PackageQueue(q) && q.Live(pointer) && q.Contents() != [] && entries == Entries(q.Contents())
    modifies q.pool
    ensures PackageQueue(q) && Entries(q.Contents()) == entries[0 := entries[0].(retransmits := n)]
  {
    ghost var edited := R.Overwrite(q.Contents()[0], RETRANSMITS_AT, Little64(n));
    EditRetransmits(q.Contents()[0], n);
    EntriesUpdate(q.Contents(), edited);
    EditHead(q, pointer, RETRANSMITS_AT, Little64(n), edited);
  }

  method GetRetransmits(q: R.Queue, pointer: nat, ghost entries: seq<Entry>) returns (n: U64)
    requires PackageQueue(q) && q.Live(pointer) && q.Contents() != [] && entries == Entries(q.Contents())
    ensures n == entries[0].retransmits
  {
    q.LiveHoldsHead(pointer);
    n := ReadNumber64(q, pointer, RETRANSMITS_AT);
  }

  ghost function SentAgain(head: Entry, now: nat): Entry {
    head.(timestamp := now + RETRANSMISSION_TIMEOUT,
          retransmits := if head.retransmits + 1 > MAX_RETRY then 0 else head.retransmits + 1)
  }

  ghost function Redated(entries: seq<Entry>, t: nat): (r: seq<Entry>)
    requires entries != []
    ensures |r| == |entries|
  {
    entries[0 := entries[0].(timestamp := t)]
  }

  lemma RedatedIsSentAgain(entries: seq<Entry>, now: nat, n: nat)
    requires entries != []
    requires n == if entries[0].retransmits + 1 > MAX_RETRY then 0 else entries[0].retransmits + 1
    ensures var timed := Redated(entries, now + RETRANSMISSION_TIMEOUT);
            && timed[0].retransmits == entries[0].retransmits
            && timed[0 := timed[0].(retransmits := n)] == entries[0 := SentAgain(entries[0], now)]
  {
  }

  /** Restarts the retransmission timer of the head and counts the transmission. */
  method CountHead(q: R.Queue, pointer: nat, now: nat, ghost entries: seq<Entry>) returns (stalled: bool)
    requires PackageQueue(q) && q.Live(pointer) && q.Contents() != [] && entries == Entries(q.Contents())
    requires now + RETRANSMISSION_TIMEOUT < 0x1_0000_0000_0000_0000 && entries[0].retransmits <= MAX_RETRY
    modifies q.pool
    ensures PackageQueue(q)
    ensures stalled <==> entries[0].retransmits + 1 > MAX_RETRY
    ensures Entries(q.Contents()) == entries[0 := SentAgain(entries[0], now)]
  {
    ghost var timed := Redated(entries, now + RETRANSMISSION_TIMEOUT);
    SetTimestamp(q, pointer, now + RETRANSMISSION_TIMEOUT, entries);
    var count := GetRetransmits(q, pointer, timed);
    stalled := count + 1 > MAX_RETRY;
    count := if stalled then 0 else count + 1;
    RedatedIsSentAgain(entries, now, count);
    SetRetransmits(q, pointer, count, timed);
  }

  // ---------- What a transmission is ----------

  /** What a transmission gives the socket: a datagram that is read as the packet. */
  ghost predicate OnTheWire(wire: Option<seq<U8>>, sent: seq<Datagram>) {
    && |sent| <= 1 && (wire.Some? <==> sent != [])
    && (wire.Some? ==> ReadAs(wire.value, sent[0].packet))
  }

  lemma NotDue(chan: Chan, peer: Addr, now: nat)
    requires chan.sendQueue != [] && !Expired(chan.sendQueue[0].timestamp, now)
    ensures TransmitHead(chan, peer, now) == Transmission(chan, [], [], 0)
  {
  }

  lemma DueOnce(chan: Chan, peer: Addr, now: nat)
    requires chan.sendQueue != [] && Expired(chan.sendQueue[0].timestamp, now) && !chan.reliable
    ensures TransmitHead(chan, peer, now)
         == Transmission(chan.(sendQueue := chan.sendQueue[1..]), [], [Datagram(peer, chan.sendQueue[0].packet)], 0)
  {
  }

  ghost function Notes(stalled: bool, seqNo: U32): seq<Note> {
    if stalled then [Stalled(seqNo)] else []
  }

  lemma DueAgain(chan: Chan, peer: Addr, now: nat, stalled: bool)
    requires chan.sendQueue != [] && Expired(chan.sendQueue[0].timestamp, now) && chan.reliable
    requires stalled <==> chan.sendQueue[0].retransmits + 1 > MAX_RETRY
    ensures var head := chan.sendQueue[0];
            TransmitHead(chan, peer, now) ==
              Transmission(chan.(sendQueue := chan.sendQueue[0 := SentAgain(head, now)]),
                           Notes(stalled, head.packet.seqNo), [Datagram(peer, head.packet)], if stalled then 1 else 0)
  {
  }

  /** Sends the head of a send queue if its timer has run out, and pops it or edits it in place. */
  method TransmitPackage(q: R.Queue, ghost chan: Chan, reliable: bool, ghost peer: Addr, now: nat)
    returns (wire: Option<seq<U8>>, stalled: bool)
    requires PackageQueue(q) && chan.reliable == reliable && chan.sendQueue == Entries(q.Contents()) && q.Contents() != []
    requires now + RETRANSMISSION_TIMEOUT < 0x1_0000_0000_0000_0000 && chan.sendQueue[0].retransmits <= MAX_RETRY
    modifies q`head, q`length, q.pool
    ensures PackageQueue(q)
    ensures var t := TransmitHead(chan, peer, now);
            && Entries(q.Contents()) == t.chan.sendQueue && OnTheWire(wire, t.sent)
            && t.notes == Notes(stalled, chan.sendQueue[0].packet.seqNo) && t.losses == (if stalled then 1 else 0)
  {
    var status, pointer := q.Peek();
    var timestamp := ReadNumber64(q, pointer, TIMESTAMP_AT);
    if timestamp == 0 || now < timestamp {
      NotDue(chan, peer, now);
      return None, false;
    }
    var frame := SendHead(q, pointer);
    wire, stalled := Some(frame), false;
    if !reliable {
      DueOnce(chan, peer, now);
      PopEntry(q);
    } else {
      stalled := CountHead(q, pointer, now, chan.sendQueue);
      DueAgain(chan, peer, now, stalled);
    }
  }

  method PopEntry(q: R.Queue)
    requires PackageQueue(q) && q.Contents() != []
    modifies q`head, q`length
    ensures PackageQueue(q) && Entries(q.Contents()) == Entries(old(q.Contents()))[1..]
  {
    EntriesDrop(q.Contents());
    var _ := PopPackage(q);
  }

  /** A bounded queue after a push. */
  ghost function Taking<T>(queue: seq<T>, x: T): (r: seq<T>)
  {
    if |queue| < QUEUE_CAPACITY then queue + [x] else queue
  }

  /** A push, as the entries see it. */
  method PushEntry(q: R.Queue, package: seq<U8>, ghost e: Entry, ghost entries: seq<Entry>) returns (ok: bool)
    requires PackageQueue(q) && Packed(package) && EntryOf(package) == e && entries == Entries(q.Contents())
    modifies q`length, q.pool
    ensures PackageQueue(q) && (ok <==> |entries| < QUEUE_CAPACITY)
    ensures Entries(q.Contents()) == Taking(entries, e)
  {
    EntriesSnoc(q.Contents(), package);
    ok := PushPackage(q, package);
  }

  /** A push, as the packets see it. */
  method PushPacket(q: R.Queue, package: seq<U8>, ghost p: Packet, ghost waiting: seq<Packet>)
    requires PackageQueue(q) && Packed(package) && EntryOf(package).packet == p && waiting == PacketsOf(q.Contents())
    modifies q`length, q.pool
    ensures PackageQueue(q)
    ensures PacketsOf(q.Contents()) == Taking(waiting, p)
  {
    EntriesSnoc(q.Contents(), package);
    var _ := PushPackage(q, package);
  }

  method MakePackage(p: Packet, stale: seq<U8>, timestamp: U64) returns (package: seq<U8>)
    requires |p.payload| + |stale| == MTU
    ensures Packed(package) && EntryOf(package) == Entry(p, timestamp, 0)
  {
    EntryOfPackage(p, stale, timestamp);
    package := PackageFor(p, stale, timestamp);
  }

  // ---------- A channel of two rings ----------

  ghost predicate AllCounted(entries: seq<Entry>) {
    forall i :: 0 <= i < |entries| ==> entries[i].retransmits <= MAX_RETRY
  }

  lemma TransmitKeepsCounted(chan: Chan, peer: Addr, now: nat)
    requires AllCounted(chan.sendQueue)
    ensures AllCounted(TransmitHead(chan, peer, now).chan.sendQueue)
  {
  }

  lemma SizesFit()
    ensures R.ExactSizes(QUEUE_CAPACITY, PACKAGE_SIZE)
  {
    R.SlotStartIsProduct(31, PACKAGE_SIZE);
  }

  method NewQueue() returns (q: R.Queue)
    ensures fresh(q) && fresh(q.pool) && PackageQueue(q) && q.Contents() == []
  {
    SizesFit();
    q := new R.Queue(PACKAGE_SIZE, QUEUE_CAPACITY);
  }

  lemma SentMoves(chan: Chan, e: Entry)
    requires |chan.sendQueue| < QUEUE_CAPACITY
    ensures Moved(chan, NO_ADDR,
                  Chan(chan.reliable, Next32(chan.seqNo), chan.ackNo, Taking(chan.sendQueue, e), chan.recvQueue), Sent(e))
  {
  }

  lemma AcceptedMoves(chan: Chan, p: Packet)
    ensures Moved(chan, NO_ADDR,
                  Chan(chan.reliable, chan.seqNo, Next32(chan.ackNo), chan.sendQueue, Taking(chan.recvQueue, p)), Accepted(p))
  {
  }

  lemma TakingKeepsCounted(entries: seq<Entry>, e: Entry)
    requires AllCounted(entries) && e.retransmits == 0
    ensures AllCounted(Taking(entries, e))
  {
  }

  class Channel {
    const reliable: bool
    const sendQueue: R.Queue
    const recvQueue: R.Queue
    var seqNo: U32
    var ackNo: U32

    ghost predicate Valid()
      reads this, sendQueue, sendQueue.pool, recvQueue, recvQueue.pool
    {
      && sendQueue != recvQueue && sendQueue.pool != recvQueue.pool
      && PackageQueue(sendQueue) && PackageQueue(recvQueue) && AllCounted(Entries(sendQueue.Contents()))
    }

    /** The channel of packets it stands for. */
    ghost function View(): Chan
      requires Valid()
      reads this, sendQueue, sendQueue.pool, recvQueue, recvQueue.pool
    {
      Chan(reliable, seqNo, ackNo, Entries(sendQueue.Contents()), PacketsOf(recvQueue.Contents()))
    }

    constructor (reliable: bool)
      ensures Valid() && View() == Chan(reliable, 0, 0, [], [])
      ensures fresh(sendQueue) && fresh(sendQueue.pool) && fresh(recvQueue) && fresh(recvQueue.pool)
    {
      var s := NewQueue();
      var r := NewQueue();
      this.reliable, sendQueue, recvQueue, seqNo, ackNo := reliable, s, r, 0, 0;
    }

    /** glb_send on this channel: packs the data, with whatever the memory behind it holds. */
    method Send(channel: U8, id: ConnId, data: Payload, stale: seq<U8>, now: U64) returns (ok: bool)
      requires Valid() && |data| + |stale| == MTU
      modifies this`seqNo, sendQueue`length, sendQueue.pool
      ensures Valid()
      ensures ok <==> |old(View()).sendQueue| < QUEUE_CAPACITY
      ensures if ok then
                var p := Packet(DATA, channel, id, old(seqNo), ackNo, data);
                Moved(old(View()), NO_ADDR, View(), Sent(Entry(p, now, 0)))
              else View() == old(View())
    {
      ghost var before := View();
      var package := MakePackage(Packet(DATA, channel, id, seqNo, ackNo, data), stale, now);
      ghost var e := EntryOf(package);
      TakingKeepsCounted(before.sendQueue, e);
      ok := PushEntry(sendQueue, package, e, before.sendQueue);
      if ok {
        SentMoves(before, e);
        seqNo := Next32(seqNo);
      }
    }

    /** A DATA|ACK for this channel. */
    method TakeAck(number: U32)
      requires Valid()
      modifies sendQueue`head, sendQueue`length
      ensures Valid()
      ensures var before := old(View());
              if before.sendQueue != [] && before.sendQueue[0].packet.seqNo == number
              then Moved(before, NO_ADDR, View(), Acked)
              else View() == before
    {
      var status, pointer := sendQueue.Peek();
      if status.Success? {
        var seqNo := ReadNumber32(sendQueue, pointer, 16);
        if seqNo == number {
          EntriesDrop(sendQueue.Contents());
          PopEntry(sendQueue);
        }
      }
    }

    /** The timers of this channel. */
    method Transmit(ghost peer: Addr, now: nat) returns (wire: Option<seq<U8>>, stalled: bool)
      requires Valid() && now + RETRANSMISSION_TIMEOUT < 0x1_0000_0000_0000_0000
      modifies sendQueue`head, sendQueue`length, sendQueue.pool
      ensures Valid() && Moved(old(View()), peer, View(), Ticked(now))
      ensures var t := TransmitHead(old(View()), peer, now);
              OnTheWire(wire, t.sent) && (stalled <==> t.notes != [])
    {
      ghost var chan := View();
      TransmitKeepsCounted(chan, peer, now);
      var size := sendQueue.length;
      if size == 0 {
        return None, false;
      }
      wire, stalled := TransmitPackage(sendQueue, chan, reliable, peer, now);
    }

    /** A package that is due. */
    method Accept(package: seq<U8>)
      requires Valid() && Packed(package)
      modifies this`ackNo, recvQueue`length, recvQueue.pool
      ensures Valid() && Moved(old(View()), NO_ADDR, View(), Accepted(EntryOf(package).packet))
    {
      ghost var before := View();
      PushPacket(recvQueue, package, EntryOf(package).packet, before.recvQueue);
      AcceptedMoves(before, EntryOf(package).packet);
      ackNo := Next32(ackNo);
    }

    /** glb_popdata on this channel. */
    method PopData(buflen: nat) returns (data: Option<Payload>)
      requires Valid() && buflen > 0
      modifies recvQueue`head, recvQueue`length
      ensures Valid()
      ensures var before := old(View());
              if before.recvQueue == [] || buflen < |before.recvQueue[0].payload|
              then data == None && View() == before
              else data == Some(before.recvQueue[0].payload) && Moved(before, NO_ADDR, View(), Popped)
    {
      var status, pointer := recvQueue.Peek();
      if status.QueueEmpty? {
        return None;
      }
      var len := Decode(recvQueue.pool[pointer..pointer + PACKAGE_SIZE]).payloadLen;
      if buflen < len {
        return None;
      }
      EntriesDrop(recvQueue.Contents());
      var package := PopPackage(recvQueue);
      data := Some(EntryOf(package).packet.payload);
    }
  }
}
