/**
 One end of a connection over time: a context together with a record of what its application put in
 and got out. The record is bookkeeping for the theorems; the context alone decides what happens.

 The invariant proved here holds whatever packets arrive, in whatever order, from whatever address,
 for as long as the end has entered the ESTABLISHED state at most once.
 */
module Node {
  import opened Wrappers
  import opened Protocol
  import opened Endpoint

  const MODULUS: nat := 0x1_0000_0000

  /**
   The record of one channel: the payloads `Send` queued, how many of them have left the send queue,
   the payloads that advanced the receive counter, the payloads `PopData` returned, and whether the
   receive queue always had room.
   */
  datatype Book = Book(sent: seq<Payload>, base: nat, accepted: seq<Payload>, popped: seq<Payload>, lossless: bool)

  const EMPTY_BOOK := Book([], 0, [], [], true)

  /** `slot`, `id`, `seq0`, `ack0`: the slot last established, its identifier and its first counters. */
  datatype Node = Node(
    ctx: Ctx,
    books: seq<Book>,
    established: nat,
    slot: nat,
    id: ConnId,
    seq0: U32,
    ack0: U32,
    agreed: bool)

  datatype Action =
    | Recv(packet: Packet, from: Addr, sendOk: bool)
    | Timers
    | SendData(slot: nat, channel: U8, data: Payload)
    | CloseConn(slot: nat)
    | ConnectTo(addrOk: bool)
    | Poll
    | Pop(slot: nat, channel: U8, buflen: nat)

  /** What the library asks of the caller. */
  predicate ActionOk(n: Node, a: Action) {
    match a
    case SendData(slot, _, _) => slot < |n.ctx.conns|
    case CloseConn(slot) => slot < |n.ctx.conns|
    case Pop(slot, _, _) => slot < |n.ctx.conns| && n.ctx.conns[slot].channels.Some?
    case ConnectTo(_) => |n.ctx.conns| > 0 && !n.ctx.conns[0].state.Established?
    case _ => true
  }

  // ---------- Keeping the record ----------

  function ObserveChannel(b: Book, before: Chan, after: Chan, payload: Payload): Book
    requires |after.sendQueue| <= |before.sendQueue|
  {
    var accepts := after.ackNo != before.ackNo;
    b.(base := b.base + (|before.sendQueue| - |after.sendQueue|),
       accepted := if accepts then b.accepted + [payload] else b.accepted,
       lossless := b.lossless && !(accepts && |before.recvQueue| >= QUEUE_CAPACITY))
  }

  /** Nothing but the application lengthens a send queue. */
  predicate Observable(before: Conn, after: Conn, n: nat) {
    && before.channels.Some? && after.channels.Some?
    && |before.channels.value| == |after.channels.value| == n
    && forall i :: 0 <= i < n ==>
         |after.channels.value[i].sendQueue| <= |before.channels.value[i].sendQueue|
  }

  function Observe(books: seq<Book>, before: Conn, after: Conn, payload: Payload): (r: seq<Book>)
    ensures |r| == |books|
  {
    if before.state.Established? && after.state.Established? && Observable(before, after, |books|) then
      seq(|books|, i requires 0 <= i < |books| =>
        ObserveChannel(books[i], before.channels.value[i], after.channels.value[i], payload))
    else books
  }

  /** The slot a packet is handled by, if it is one that can establish a connection or move data. */
  function HandlingSlot(c: Ctx, p: Packet): (slot: Option<nat>)
    requires |c.conns| >= 1
    ensures slot.Some? ==> slot.value < |c.conns|
  {
    if p.ctrl == SYN_ACK then Some(0)
    else if IsAddressed(p) then FindById(c.conns, p.connId)
    else None
  }

  /** The library's own check of the counters a handshake packet carries. */
  predicate CountersAgree(con: Conn, p: Packet) {
    p.ackNo == con.seqNo && p.seqNo == con.ackNo
  }

  function ActRecv(n: Node, p: Packet, from: Addr, sendOk: bool, now: nat): (r: (Node, seq<Datagram>))
    requires CtxOk(n.ctx)
    ensures r.0.ctx == Receive(n.ctx, p, from, now, sendOk).ctx
  {
    var out := Receive(n.ctx, p, from, now, sendOk);
    var slot := HandlingSlot(n.ctx, p);
    if slot.None? then (n.(ctx := out.ctx), out.sent)
    else
      var before, after := n.ctx.conns[slot.value], out.ctx.conns[slot.value];
      if !before.state.Established? && after.state.Established? && after.channels.Some? && after.channels.value != [] then
        (n.(ctx := out.ctx, established := n.established + 1, slot := slot.value, id := after.connId,
            seq0 := after.channels.value[0].seqNo, ack0 := after.channels.value[0].ackNo,
            agreed := CountersAgree(after, p)), out.sent)
      else (n.(ctx := out.ctx, books := Observe(n.books, before, after, p.payload)), out.sent)
  }

  function ActTimers(n: Node, now: nat): (Node, seq<Datagram>)
    requires CtxOk(n.ctx)
  {
    var out := TimersFrom(n.ctx, 0, now);
    if n.slot < |n.ctx.conns| && n.slot < |out.ctx.conns| then
      (n.(ctx := out.ctx, books := Observe(n.books, n.ctx.conns[n.slot], out.ctx.conns[n.slot], [])), out.sent)
    else (n.(ctx := out.ctx), out.sent)
  }

  function ActSend(n: Node, slot: nat, channel: U8, data: Payload, now: nat): Node
    requires CtxOk(n.ctx) && slot < |n.ctx.conns|
  {
    var (c, code) := Send(n.ctx, slot, channel, data, now);
    if code.Success? && channel < |n.books| then
      n.(ctx := c, books := n.books[channel := n.books[channel].(sent := n.books[channel].sent + [data])])
    else n.(ctx := c)
  }

  function ActPop(n: Node, slot: nat, channel: U8, buflen: nat): Node
    requires CtxOk(n.ctx) && slot < |n.ctx.conns| && n.ctx.conns[slot].channels.Some?
  {
    var (c, code, payload) := PopData(n.ctx, slot, channel, buflen);
    if code.Success? && channel < |n.books| then
      n.(ctx := c, books := n.books[channel := n.books[channel].(popped := n.books[channel].popped + [payload])])
    else n.(ctx := c)
  }

  function Act(n: Node, a: Action, now: nat): (Node, seq<Datagram>)
    requires CtxOk(n.ctx) && ActionOk(n, a)
  {
    match a
    case Recv(p, from, sendOk) => ActRecv(n, p, from, sendOk, now)
    case Timers => ActTimers(n, now)
    case SendData(slot, channel, data) => (ActSend(n, slot, channel, data, now), [])
    case CloseConn(slot) => (n.(ctx := Close(n.ctx, slot, now).0), [])
    case ConnectTo(addrOk) => (n.(ctx := Connect(n.ctx, now, addrOk).0), [])
    case Poll => (n.(ctx := PollEvent(n.ctx).0), [])
    case Pop(slot, channel, buflen) => (ActPop(n, slot, channel, buflen), [])
  }

  /** An action, and when it is taken. */
  datatype Timed = Timed(action: Action, now: nat)

  ghost predicate AnyStep(n: Node, t: Timed, n': Node) {
    CtxOk(n.ctx) && ActionOk(n, t.action) && n' == Act(n, t.action, t.now).0
  }

  /** Every action leaves a well-formed context. */
  lemma ActOk(n: Node, a: Action, now: nat)
    requires CtxOk(n.ctx) && ActionOk(n, a)
    ensures CtxOk(Act(n, a, now).0.ctx)
  {
    match a
    case Recv(p, from, sendOk) => ReceiveOk(n.ctx, p, from, now, sendOk);
    case Timers => TimersFromOk(n.ctx, 0, now);
    case SendData(slot, channel, data) => SendOk(n.ctx, slot, channel, data, now);
    case Pop(slot, channel, buflen) => PopDataOk(n.ctx, slot, channel, buflen);
    case _ =>
  }

  // ---------- Subsequences ----------

  /** `a` is what is left of `b` after deleting elements, in order. */
  ghost predicate Subsequence<T>(a: seq<T>, b: seq<T>) {
    if a == [] then true
    else if b == [] then false
    else (a[|a| - 1] == b[|b| - 1] && Subsequence(a[..|a| - 1], b[..|b| - 1])) || Subsequence(a, b[..|b| - 1])
  }

  lemma SubsequenceGrows<T>(a: seq<T>, b: seq<T>, x: T)
    requires Subsequence(a, b)
    ensures Subsequence(a, b + [x]) && Subsequence(a + [x], b + [x])
  {
    assert (a + [x])[..|a|] == a && (b + [x])[..|b|] == b;
  }

  lemma {:induction false} SubsequenceDropsLast<T>(a: seq<T>, b: seq<T>)
    requires a != [] && Subsequence(a, b)
    ensures Subsequence(a[..|a| - 1], b)
    decreases |b|
  {
    var front := b[..|b| - 1];
    if Subsequence(a, front) {
      SubsequenceDropsLast(a, front);
    }
    assert Subsequence(a[..|a| - 1], front);
    SubsequenceGrows(a[..|a| - 1], front, b[|b| - 1]);
    assert b == front + [b[|b| - 1]];
  }

  lemma {:induction false} SubsequencePrefix<T>(a: seq<T>, tail: seq<T>, b: seq<T>)
    requires Subsequence(a + tail, b)
    ensures Subsequence(a, b)
    decreases |tail|
  {
    if tail != [] {
      var short := tail[..|tail| - 1];
      assert (a + tail)[..|a + tail| - 1] == a + short;
      SubsequenceDropsLast(a + tail, b);
      SubsequencePrefix(a, short, b);
    } else {
      assert a + tail == a;
    }
  }

  // ---------- The invariant ----------

  function Payloads(packets: seq<Packet>): (r: seq<Payload>)
    ensures |r| == |packets|
  {
    seq(|packets|, i requires 0 <= i < |packets| => packets[i].payload)
  }

  /** The DATA packet for the `k`-th payload of a channel. */
  ghost predicate Carries(p: Packet, channel: nat, b: Book, id: ConnId, seq0: U32, k: nat) {
    && k < |b.sent|
    && p.ctrl == DATA && p.channel == channel && p.connId == id
    && p.seqNo == (seq0 + k) % MODULUS
    && p.payload == b.sent[k]
  }

  /** A channel of an established connection agrees with its record. */
  ghost predicate ChannelMatches(chan: Chan, channel: nat, b: Book, id: ConnId, seq0: U32, ack0: U32) {
    && b.base <= |b.sent|
    && |chan.sendQueue| == |b.sent| - b.base
    && chan.seqNo == (seq0 + |b.sent|) % MODULUS
    && chan.ackNo == (ack0 + |b.accepted|) % MODULUS
    && (forall j :: 0 <= j < |chan.sendQueue| ==> Carries(chan.sendQueue[j].packet, channel, b, id, seq0, b.base + j))
    && (b.lossless ==> b.popped + Payloads(chan.recvQueue) == b.accepted)
    && (b.lossless || |b.popped| + |chan.recvQueue| < |b.accepted|)
  }

  /** What holds of any channel array the connection still has, in whatever state. */
  ghost predicate Deliverable(chan: Chan, b: Book) {
    && Subsequence(b.popped + Payloads(chan.recvQueue), b.accepted)
    && (b.lossless ==> b.popped + Payloads(chan.recvQueue) <= b.accepted)
  }

  ghost predicate Delivered(b: Book) {
    Subsequence(b.popped, b.accepted) && (b.lossless ==> b.popped <= b.accepted)
  }

  ghost predicate EstablishedMatches(con: Conn, n: Node) {
    && con.connId == n.id
    && con.channels.Some? && |con.channels.value| == |n.books|
    && forall i :: 0 <= i < |n.books| ==>
         ChannelMatches(con.channels.value[i], i, n.books[i], n.id, n.seq0, n.ack0)
  }

  ghost predicate ChannelsDeliverable(con: Conn, books: seq<Book>) {
    con.channels.Some? ==>
      |con.channels.value| == |books| && forall i :: 0 <= i < |books| ==> Deliverable(con.channels.value[i], books[i])
  }

  ghost predicate NothingToPop(con: Conn) {
    con.channels.Some? ==> forall i :: 0 <= i < |con.channels.value| ==> con.channels.value[i].recvQueue == []
  }

  ghost predicate NodeInv(n: Node) {
    && CtxOk(n.ctx)
    && n.established <= 1
    && n.slot < |n.ctx.conns|
    && |n.books| == |n.ctx.reliable|
    && (forall i :: 0 <= i < |n.books| ==> Delivered(n.books[i]))
    && (n.established == 0 ==> n.books == seq(|n.books|, i => EMPTY_BOOK))
    && (forall i :: 0 <= i < |n.ctx.conns| && n.ctx.conns[i].state.Established? ==> i == n.slot && n.established == 1)
    && (n.ctx.conns[n.slot].state.Established? ==> EstablishedMatches(n.ctx.conns[n.slot], n))
    && (forall i :: 0 <= i < |n.ctx.conns| && (i != n.slot || n.established == 0) ==> NothingToPop(n.ctx.conns[i]))
    && ChannelsDeliverable(n.ctx.conns[n.slot], n.books)
  }

  // ---------- One channel changes ----------

  lemma ObserveOneChannel(books: seq<Book>, before: Conn, after: Conn, k: nat, payload: Payload)
    requires before.state.Established? && after.state.Established?
    requires before.channels.Some? && k < |before.channels.value| == |books|
    requires after.channels.Some? && |after.channels.value| == |books|
    requires after.channels.value == before.channels.value[k := after.channels.value[k]]
    requires |after.channels.value[k].sendQueue| <= |before.channels.value[k].sendQueue|
    ensures Observe(books, before, after, payload)
         == books[k := ObserveChannel(books[k], before.channels.value[k], after.channels.value[k], payload)]
  {
  }

  lemma PayloadsSnoc(packets: seq<Packet>, p: Packet)
    ensures Payloads(packets + [p]) == Payloads(packets) + [p.payload]
  {
  }

  lemma NextModulus(x: nat)
    ensures Next32(x % MODULUS) == (x + 1) % MODULUS
    ensures Next32(x % MODULUS) != x % MODULUS
  {
  }

  ghost function AcceptedBook(b: Book, chan: Chan, payload: Payload): Book {
    b.(accepted := b.accepted + [payload], lossless := b.lossless && |chan.recvQueue| < QUEUE_CAPACITY)
  }

  lemma NextMatches(chan: Chan, after: Chan, k: nat, b: Book, b': Book, id: ConnId, seq0: U32, ack0: U32, p: Packet)
    requires ChannelMatches(chan, k, b, id, seq0, ack0) && Deliverable(chan, b)
    requires after.ackNo == Next32(chan.ackNo)
    requires after.seqNo == chan.seqNo && after.sendQueue == chan.sendQueue
    requires after.recvQueue == if |chan.recvQueue| < QUEUE_CAPACITY then chan.recvQueue + [p] else chan.recvQueue
    requires b' == AcceptedBook(b, chan, p.payload)
    ensures ChannelMatches(after, k, b', id, seq0, ack0) && Deliverable(after, b')
  {
    NextModulus(ack0 + |b.accepted|);
    AcceptKeepsDelivery(chan, after, b, b', p);
    SameQueueCarries(chan.sendQueue, k, b, b', id, seq0);
  }

  /** Accepting a packet keeps channel and record in step. */
  lemma AcceptKeepsMatch(chan: Chan, after: Chan, k: nat, n: Node, p: Packet)
    requires k < |n.books|
    requires ChannelMatches(chan, k, n.books[k], n.id, n.seq0, n.ack0) && Deliverable(chan, n.books[k])
    requires after.ackNo == Next32(chan.ackNo)
    requires after.seqNo == chan.seqNo && after.sendQueue == chan.sendQueue
    requires after.recvQueue == if |chan.recvQueue| < QUEUE_CAPACITY then chan.recvQueue + [p] else chan.recvQueue
    ensures ObserveChannel(n.books[k], chan, after, p.payload).accepted == n.books[k].accepted + [p.payload]
    ensures ChannelMatches(after, k, ObserveChannel(n.books[k], chan, after, p.payload), n.id, n.seq0, n.ack0)
    ensures Deliverable(after, ObserveChannel(n.books[k], chan, after, p.payload))
  {
    NextModulus(chan.ackNo);
    ObserveAccepted(chan, after, n.books[k], p.payload);
    NextMatches(chan, after, k, n.books[k], AcceptedBook(n.books[k], chan, p.payload), n.id, n.seq0, n.ack0, p);
  }

  lemma ObserveAccepted(chan: Chan, after: Chan, b: Book, payload: Payload)
    requires after.ackNo != chan.ackNo && after.sendQueue == chan.sendQueue
    ensures ObserveChannel(b, chan, after, payload)
         == b.(accepted := b.accepted + [payload], lossless := b.lossless && |chan.recvQueue| < QUEUE_CAPACITY)
  {
  }

  /** What waits is still what was accepted, or, after an overflow, part of it. */
  lemma AcceptKeepsDelivery(chan: Chan, after: Chan, b: Book, b': Book, p: Packet)
    requires Deliverable(chan, b)
    requires b.lossless ==> b.popped + Payloads(chan.recvQueue) == b.accepted
    requires b.lossless || |b.popped| + |chan.recvQueue| < |b.accepted|
    requires b' == b.(accepted := b.accepted + [p.payload], lossless := b.lossless && |chan.recvQueue| < QUEUE_CAPACITY)
    requires after.recvQueue == if |chan.recvQueue| < QUEUE_CAPACITY then chan.recvQueue + [p] else chan.recvQueue
    ensures Deliverable(after, b')
    ensures b'.lossless ==> b'.popped + Payloads(after.recvQueue) == b'.accepted
    ensures b'.lossless || |b'.popped| + |after.recvQueue| < |b'.accepted|
  {
    PayloadsSnoc(chan.recvQueue, p);
    SubsequenceGrows(b.popped + Payloads(chan.recvQueue), b.accepted, p.payload);
    assert b.popped + (Payloads(chan.recvQueue) + [p.payload]) == (b.popped + Payloads(chan.recvQueue)) + [p.payload];
  }

  lemma SameQueueCarries(queue: seq<Entry>, k: nat, b: Book, b': Book, id: ConnId, seq0: U32)
    requires b'.sent == b.sent && b'.base == b.base
    requires forall j :: 0 <= j < |queue| ==> Carries(queue[j].packet, k, b, id, seq0, b.base + j)
    ensures forall j :: 0 <= j < |queue| ==> Carries(queue[j].packet, k, b', id, seq0, b'.base + j)
  {
    forall j | 0 <= j < |queue| ensures Carries(queue[j].packet, k, b', id, seq0, b'.base + j) {
      assert Carries(queue[j].packet, k, b, id, seq0, b.base + j);
    }
  }

  /** So does losing the head of the send queue. */
  lemma DequeueKeepsMatch(chan: Chan, after: Chan, k: nat, n: Node, payload: Payload)
    requires k < |n.books|
    requires ChannelMatches(chan, k, n.books[k], n.id, n.seq0, n.ack0) && Deliverable(chan, n.books[k])
    requires chan.sendQueue != [] && after == chan.(sendQueue := chan.sendQueue[1..])
    ensures ChannelMatches(after, k, ObserveChannel(n.books[k], chan, after, payload), n.id, n.seq0, n.ack0)
    ensures Deliverable(after, ObserveChannel(n.books[k], chan, after, payload))
  {
    forall j | 0 <= j < |after.sendQueue|
      ensures Carries(after.sendQueue[j].packet, k, n.books[k], n.id, n.seq0, n.books[k].base + 1 + j)
    {
      assert after.sendQueue[j] == chan.sendQueue[j + 1];
    }
  }

  lemma DeliverableIsDelivered(chan: Chan, b: Book)
    requires Deliverable(chan, b)
    ensures Delivered(b)
  {
    SubsequencePrefix(b.popped, Payloads(chan.recvQueue), b.accepted);
  }

  /** The part of the invariant about the slot that carries data. */
  ghost predicate SlotInv(con: Conn, n: Node) {
    && (con.state.Established? ==> EstablishedMatches(con, n))
    && ChannelsDeliverable(con, n.books)
    && (forall i :: 0 <= i < |n.books| ==> Delivered(n.books[i]))
  }

  /** One channel moved in step with its record: so does the slot. */
  lemma OneChannelKeepsSlot(n: Node, before: Conn, after: Conn, k: nat, payload: Payload)
    requires before.state.Established? && SlotInv(before, n)
    requires k < |n.books| && after.channels.Some? && |after.channels.value| == |n.books|
    requires after.state.Established? && after.connId == before.connId
    requires after.channels.value == before.channels.value[k := after.channels.value[k]]
    requires |after.channels.value[k].sendQueue| <= |before.channels.value[k].sendQueue|
    requires var b := ObserveChannel(n.books[k], before.channels.value[k], after.channels.value[k], payload);
             && ChannelMatches(after.channels.value[k], k, b, n.id, n.seq0, n.ack0)
             && Deliverable(after.channels.value[k], b)
    ensures SlotInv(after, n.(books := Observe(n.books, before, after, payload)))
  {
    var b := ObserveChannel(n.books[k], before.channels.value[k], after.channels.value[k], payload);
    ObserveOneChannel(n.books, before, after, k, payload);
    DeliverableIsDelivered(after.channels.value[k], b);
  }

  lemma UnmovedKeepsSlot(n: Node, before: Conn, after: Conn, payload: Payload)
    requires before.state.Established? && SlotInv(before, n)
    requires after.state.Established? && after.connId == before.connId && after.channels == before.channels
    ensures Observe(n.books, before, after, payload) == n.books
    ensures SlotInv(after, n.(books := Observe(n.books, before, after, payload)))
  {
  }

  lemma DataKeepsSlot(n: Node, before: Conn, p: Packet, from: Addr)
    requires before.state.Established? && SlotInv(before, n) && ConnOk(before, n.ctx.reliable)
    requires |n.books| == |n.ctx.reliable|
    ensures var after := DataEffect(before, p, from, n.ctx.reliable).con;
            after.state.Established? && SlotInv(after, n.(books := Observe(n.books, before, after, p.payload)))
  {
    var after := DataEffect(before, p, from, n.ctx.reliable).con;
    if after.channels == before.channels {
      UnmovedKeepsSlot(n, before, after, p.payload);
    } else {
      var k := p.channel;
      AcceptKeepsMatch(before.channels.value[k], after.channels.value[k], k, n, p);
      OneChannelKeepsSlot(n, before, after, k, p.payload);
    }
  }

  lemma DataAckKeepsSlot(n: Node, before: Conn, p: Packet)
    requires before.state.Established? && SlotInv(before, n) && ConnOk(before, n.ctx.reliable)
    requires |n.books| == |n.ctx.reliable|
    ensures var after := DataAckEffect(before, p, n.ctx.reliable).con;
            after.state.Established? && SlotInv(after, n.(books := Observe(n.books, before, after, p.payload)))
  {
    var after := DataAckEffect(before, p, n.ctx.reliable).con;
    if after.channels == before.channels {
      UnmovedKeepsSlot(n, before, after, p.payload);
    } else {
      var k := p.channel;
      DequeueKeepsMatch(before.channels.value[k], after.channels.value[k], k, n, p.payload);
      OneChannelKeepsSlot(n, before, after, k, p.payload);
    }
  }

  /** Handling a packet in the established slot. */
  lemma AddressedKeepsSlot(n: Node, before: Conn, p: Packet, from: Addr, now: nat, sendOk: bool)
    requires before.state.Established? && SlotInv(before, n) && ConnOk(before, n.ctx.reliable)
    requires |n.books| == |n.ctx.reliable| && IsAddressed(p)
    ensures var after := AddressedEffect(before, p, from, now, sendOk, n.ctx.reliable).con;
            SlotInv(after, n.(books := Observe(n.books, before, after, p.payload)))
  {
    if p.ctrl == DATA {
      DataKeepsSlot(n, before, p, from);
    } else if p.ctrl == DATA_ACK {
      DataAckKeepsSlot(n, before, p);
    } else {
      var after := AddressedEffect(before, p, from, now, sendOk, n.ctx.reliable).con;
      if after.state.Established? {
        UnmovedKeepsSlot(n, before, after, p.payload);
      }
    }
  }

  // ---------- One slot changes ----------

  /** `n'` is `n` after something happened to the connection in one slot. */
  ghost predicate SlotReplaced(n: Node, n': Node, i: nat, con: Conn) {
    && i < |n.ctx.conns|
    && n'.ctx.conns == n.ctx.conns[i := con]
    && CtxOk(n'.ctx) && n'.ctx.reliable == n.ctx.reliable
    && n'.established == n.established && n'.slot == n.slot
    && n'.id == n.id && n'.seq0 == n.seq0 && n'.ack0 == n.ack0
    && |n'.books| == |n.books|
  }

  lemma SlotReplacedKeepsInv(n: Node, n': Node, i: nat, con: Conn)
    requires NodeInv(n) && SlotReplaced(n, n', i, con)
    requires n.established == 0 || i != n.slot ==> n'.books == n.books && NothingToPop(con)
    requires con.state.Established? ==> i == n.slot && n.established == 1
    requires i == n.slot ==> SlotInv(con, n')
    ensures NodeInv(n')
  {
    if i != n.slot {
      assert n'.ctx.conns[n.slot] == n.ctx.conns[n.slot];
    }
  }

  /** Nothing can be popped before anything was accepted. */
  lemma EmptyQueuesDeliverable(con: Conn, n: Node)
    requires NodeInv(n) && NothingToPop(con) && ConnOk(con, n.ctx.reliable)
    ensures ChannelsDeliverable(con, n.books)
  {
    if con.channels.Some? {
      forall i | 0 <= i < |n.books| ensures Deliverable(con.channels.value[i], n.books[i]) {
        assert Delivered(n.books[i]);
        assert n.books[i].popped + Payloads(con.channels.value[i].recvQueue) == n.books[i].popped;
      }
    }
  }

  /** A change that is not about data: state, timers, addresses, or losing the channels. */
  lemma QuietChangeKeepsInv(n: Node, n': Node, i: nat, con: Conn)
    requires NodeInv(n) && SlotReplaced(n, n', i, con) && n'.books == n.books
    requires !con.state.Established? || (n.ctx.conns[i].state.Established? && con.connId == n.ctx.conns[i].connId
                                         && con.channels == n.ctx.conns[i].channels)
    requires con.channels == n.ctx.conns[i].channels || NothingToPop(con)
    ensures NodeInv(n')
  {
    if i == n.slot {
      if con.channels != n.ctx.conns[i].channels {
        assert n'.ctx.conns[i] == con;
        EmptyQueuesDeliverable(con, n);
      }
    }
    SlotReplacedKeepsInv(n, n', i, con);
  }

  /** A connection enters the ESTABLISHED state for the first time, with fresh channels. */
  lemma EstablishingKeepsInv(n: Node, n': Node, i: nat, con: Conn)
    requires NodeInv(n) && n.established == 0
    requires i < |n.ctx.conns| && n'.ctx.conns == n.ctx.conns[i := con]
    requires CtxOk(n'.ctx) && n'.ctx.reliable == n.ctx.reliable && n'.books == n.books
    requires n'.established == 1 && n'.slot == i && n'.id == con.connId
    requires con.channels == Some(FreshChannels(n.ctx.reliable, n'.seq0, n'.ack0))
    ensures NodeInv(n')
  {
    forall k | 0 <= k < |n.books|
      ensures ChannelMatches(con.channels.value[k], k, n.books[k], n'.id, n'.seq0, n'.ack0)
      ensures Deliverable(con.channels.value[k], n.books[k])
    {
      assert n.books[k] == EMPTY_BOOK;
      assert Payloads(con.channels.value[k].recvQueue) == [];
    }
  }

  // ---------- Receiving ----------

  lemma SynKeepsInv(n: Node, p: Packet, from: Addr, sendOk: bool, now: nat)
    requires NodeInv(n) && p.ctrl == SYN
    ensures NodeInv(ActRecv(n, p, from, sendOk, now).0)
  {
    ReceiveOk(n.ctx, p, from, now, sendOk);
    var n' := ActRecv(n, p, from, sendOk, now).0;
    if p.connId.id == 0xFFFF {
      var (placed, slot) := AssignSlot(n.ctx, p, from);
      if slot.Some? {
        var i := slot.value;
        assert n'.ctx.conns == n.ctx.conns[i := n'.ctx.conns[i]];
        QuietChangeKeepsInv(n, n', i, n'.ctx.conns[i]);
      }
    }
  }

  lemma SynAckKeepsInv(n: Node, p: Packet, from: Addr, sendOk: bool, now: nat)
    requires NodeInv(n) && p.ctrl == SYN_ACK
    requires ActRecv(n, p, from, sendOk, now).0.established <= 1
    ensures NodeInv(ActRecv(n, p, from, sendOk, now).0)
  {
    ReceiveOk(n.ctx, p, from, now, sendOk);
    var n' := ActRecv(n, p, from, sendOk, now).0;
    var before, after := n.ctx.conns[0], n'.ctx.conns[0];
    if before.state.Established? {
      UnmovedKeepsSlot(n, before, after, p.payload);
      QuietChangeKeepsInv(n, n', 0, after);
    } else if after.state.Established? {
      EstablishingKeepsInv(n, n', 0, after);
    } else {
      QuietChangeKeepsInv(n, n', 0, after);
    }
  }

  /** What an addressed packet can do to a connection that is not established. */
  lemma AddressedWhenNotEstablished(con: Conn, p: Packet, from: Addr, now: nat, sendOk: bool, reliable: seq<bool>)
    requires ConnOk(con, reliable) && IsAddressed(p) && !con.state.Established?
    ensures var after := AddressedEffect(con, p, from, now, sendOk, reliable).con;
            if after.state.Established? then
              p.ctrl == ACK && con.state.SynRcvd? && after.connId == con.connId
              && after.channels == Some(FreshChannels(reliable, con.seqNo, p.seqNo))
            else after.channels == con.channels || after.channels.None?
  {
  }

  lemma AddressedKeepsInv(n: Node, p: Packet, from: Addr, sendOk: bool, now: nat)
    requires NodeInv(n) && IsAddressed(p)
    requires ActRecv(n, p, from, sendOk, now).0.established <= 1
    ensures NodeInv(ActRecv(n, p, from, sendOk, now).0)
  {
    ReceiveOk(n.ctx, p, from, now, sendOk);
    var n' := ActRecv(n, p, from, sendOk, now).0;
    var slot := FindById(n.ctx.conns, p.connId);
    if slot.Some? {
      if n.ctx.conns[slot.value].state.Established? {
        AddressedInEstablishedSlot(n, p, from, sendOk, now, slot.value);
      } else {
        AddressedElsewhere(n, p, from, sendOk, now, slot.value);
      }
    }
  }

  lemma AddressedInEstablishedSlot(n: Node, p: Packet, from: Addr, sendOk: bool, now: nat, i: nat)
    requires NodeInv(n) && IsAddressed(p)
    requires FindById(n.ctx.conns, p.connId) == Some(i) && n.ctx.conns[i].state.Established?
    ensures NodeInv(ActRecv(n, p, from, sendOk, now).0)
  {
    ReceiveOk(n.ctx, p, from, now, sendOk);
    var before := n.ctx.conns[i];
    var after := AddressedEffect(before, p, from, now, sendOk, n.ctx.reliable).con;
    AddressedKeepsSlot(n, before, p, from, now, sendOk);
    SlotReplacedKeepsInv(n, ActRecv(n, p, from, sendOk, now).0, i, after);
  }

  lemma AddressedElsewhere(n: Node, p: Packet, from: Addr, sendOk: bool, now: nat, i: nat)
    requires NodeInv(n) && IsAddressed(p)
    requires FindById(n.ctx.conns, p.connId) == Some(i) && !n.ctx.conns[i].state.Established?
    requires ActRecv(n, p, from, sendOk, now).0.established <= 1
    ensures NodeInv(ActRecv(n, p, from, sendOk, now).0)
  {
    ReceiveOk(n.ctx, p, from, now, sendOk);
    var n' := ActRecv(n, p, from, sendOk, now).0;
    var before := n.ctx.conns[i];
    var after := AddressedEffect(before, p, from, now, sendOk, n.ctx.reliable).con;
    AddressedWhenNotEstablished(before, p, from, now, sendOk, n.ctx.reliable);
    if after.state.Established? {
      EstablishingKeepsInv(n, n', i, after);
    } else {
      QuietChangeKeepsInv(n, n', i, after);
    }
  }

  /** Whatever packet arrives. */
  lemma RecvKeepsInv(n: Node, p: Packet, from: Addr, sendOk: bool, now: nat)
    requires NodeInv(n)
    requires ActRecv(n, p, from, sendOk, now).0.established <= 1
    ensures NodeInv(ActRecv(n, p, from, sendOk, now).0)
  {
    if p.ctrl == SYN {
      SynKeepsInv(n, p, from, sendOk, now);
    } else if p.ctrl == SYN_ACK {
      SynAckKeepsInv(n, p, from, sendOk, now);
    } else if IsAddressed(p) {
      AddressedKeepsInv(n, p, from, sendOk, now);
    }
  }

  // ---------- Timers ----------

  /** The timers of the slots do not affect each other. */
  lemma {:induction false} TimersFromConn(c: Ctx, slot: nat, now: nat, k: nat)
    requires CtxOk(c) && slot <= |c.conns| && k < |c.conns|
    ensures |TimersFrom(c, slot, now).ctx.conns| == |c.conns|
    ensures TimersFrom(c, slot, now).ctx.reliable == c.reliable
    ensures TimersFrom(c, slot, now).ctx.conns[k]
         == if k < slot then c.conns[k] else TimerEffect(c.conns[k], now, c.reliable).con
    decreases |c.conns| - slot
  {
    if slot < |c.conns| {
      TimerOutcomeOk(c, slot, now);
      TimersFromConn(TimerOutcome(c, slot, now).ctx, slot + 1, now, k);
    }
  }

  /** Nor do the channels of a connection. */
  lemma {:induction false} TransmitFromChannel(con: Conn, ch: nat, now: nat, k: nat)
    requires con.channels.Some? && ch <= |con.channels.value| && k < |con.channels.value|
    ensures var after := TransmitFrom(con, ch, now).con;
            && after.state == con.state && after.connId == con.connId && after.peer == con.peer
            && after.channels.value[k]
               == if k < ch then con.channels.value[k] else TransmitHead(con.channels.value[k], con.peer, now).chan
    decreases |con.channels.value| - ch
  {
    if ch < |con.channels.value| {
      var t := TransmitHead(con.channels.value[ch], con.peer, now);
      TransmitFromChannel(SetChannel(con, ch, t.chan).(lossCount := con.lossCount + t.losses), ch + 1, now, k);
    }
  }

  lemma TransmitHeadKeepsMatch(chan: Chan, peer: Addr, now: nat, k: nat, n: Node)
    requires k < |n.books|
    requires ChannelMatches(chan, k, n.books[k], n.id, n.seq0, n.ack0) && Deliverable(chan, n.books[k])
    ensures var after := TransmitHead(chan, peer, now).chan;
            && |after.sendQueue| <= |chan.sendQueue|
            && ChannelMatches(after, k, ObserveChannel(n.books[k], chan, after, []), n.id, n.seq0, n.ack0)
            && Deliverable(after, ObserveChannel(n.books[k], chan, after, []))
  {
    var after := TransmitHead(chan, peer, now).chan;
    if |after.sendQueue| < |chan.sendQueue| {
      DequeueKeepsMatch(chan, after, k, n, []);
    } else if chan.sendQueue != [] {
      StampKeepsMatch(chan, after, k, n);
    }
  }

  /** Editing the timer and the counter of the head in place changes nothing that was promised. */
  lemma StampKeepsMatch(chan: Chan, after: Chan, k: nat, n: Node)
    requires k < |n.books|
    requires ChannelMatches(chan, k, n.books[k], n.id, n.seq0, n.ack0) && Deliverable(chan, n.books[k])
    requires chan.sendQueue != [] && |after.sendQueue| == |chan.sendQueue|
    requires after == chan.(sendQueue := chan.sendQueue[0 := after.sendQueue[0]])
    requires after.sendQueue[0].packet == chan.sendQueue[0].packet
    ensures ObserveChannel(n.books[k], chan, after, []) == n.books[k]
    ensures ChannelMatches(after, k, n.books[k], n.id, n.seq0, n.ack0) && Deliverable(after, n.books[k])
  {
    forall j | 0 <= j < |after.sendQueue|
      ensures Carries(after.sendQueue[j].packet, k, n.books[k], n.id, n.seq0, n.books[k].base + j)
    {
      assert Carries(chan.sendQueue[j].packet, k, n.books[k], n.id, n.seq0, n.books[k].base + j);
    }
  }

  lemma TransmittingKeepsSlot(n: Node, before: Conn, now: nat)
    requires before.state.Established? && SlotInv(before, n)
    ensures var after := TransmitFrom(before, 0, now).con;
            && after.state.Established?
            && SlotInv(after, n.(books := Observe(n.books, before, after, [])))
  {
    var after := TransmitFrom(before, 0, now).con;
    forall k | 0 <= k < |n.books|
      ensures after.state == before.state && after.connId == before.connId
      ensures |after.channels.value[k].sendQueue| <= |before.channels.value[k].sendQueue|
      ensures var b := ObserveChannel(n.books[k], before.channels.value[k], after.channels.value[k], []);
              ChannelMatches(after.channels.value[k], k, b, n.id, n.seq0, n.ack0)
              && Deliverable(after.channels.value[k], b) && Delivered(b)
    {
      TransmitFromChannel(before, 0, now, k);
      TransmitHeadKeepsMatch(before.channels.value[k], before.peer, now, k, n);
      var b := ObserveChannel(n.books[k], before.channels.value[k], after.channels.value[k], []);
      DeliverableIsDelivered(after.channels.value[k], b);
    }
    assert |n.books| > 0 || after.connId == before.connId by {
      if |n.books| == 0 { assert after == before; }
    }
    if |n.books| > 0 {
      TransmitFromChannel(before, 0, now, 0);
    }
    assert Observable(before, after, |n.books|);
  }

  lemma TimersKeepSlot(n: Node, before: Conn, now: nat)
    requires before.state.Established? && SlotInv(before, n) && ConnOk(before, n.ctx.reliable)
    ensures var after := TimerEffect(before, now, n.ctx.reliable).con;
            SlotInv(after, n.(books := Observe(n.books, before, after, [])))
  {
    TransmittingKeepsSlot(n, before, now);
  }

  /** What its timers can do to a connection that is not established. */
  lemma TimersWhenNotEstablished(con: Conn, now: nat, reliable: seq<bool>)
    requires ConnOk(con, reliable) && !con.state.Established?
    ensures var after := TimerEffect(con, now, reliable).con;
            !after.state.Established? && (after.channels == con.channels || after.channels.None?)
  {
  }

  lemma TimersElsewhere(con: Conn, now: nat, n: Node)
    requires ConnOk(con, n.ctx.reliable) && !con.state.Established?
    ensures NothingToPop(con) ==> NothingToPop(TimerEffect(con, now, n.ctx.reliable).con)
    ensures SlotInv(con, n) ==> SlotInv(TimerEffect(con, now, n.ctx.reliable).con, n)
  {
    TimersWhenNotEstablished(con, now, n.ctx.reliable);
  }

  lemma TimersKeepInv(n: Node, now: nat)
    requires NodeInv(n)
    ensures NodeInv(ActTimers(n, now).0)
  {
    var n' := ActTimers(n, now).0;
    TimersFromOk(n.ctx, 0, now);
    forall i | 0 <= i < |n.ctx.conns|
      ensures n'.ctx.conns[i] == TimerEffect(n.ctx.conns[i], now, n.ctx.reliable).con
    {
      TimersFromConn(n.ctx, 0, now, i);
    }
    forall i | 0 <= i < |n.ctx.conns| && (i != n.slot || n.established == 0)
      ensures !n'.ctx.conns[i].state.Established? && NothingToPop(n'.ctx.conns[i])
    {
      TimersElsewhere(n.ctx.conns[i], now, n);
      TimersWhenNotEstablished(n.ctx.conns[i], now, n.ctx.reliable);
    }
    var con := n.ctx.conns[n.slot];
    assert SlotInv(con, n);
    if con.state.Established? {
      TimersKeepSlot(n, con, now);
    } else {
      TimersElsewhere(con, now, n);
      TimersWhenNotEstablished(con, now, n.ctx.reliable);
    }
    assert SlotInv(n'.ctx.conns[n.slot], n');
  }

  // ---------- The application ----------

  lemma SendKeepsMatch(n: Node, con: Conn, k: nat, data: Payload, now: nat)
    requires k < |n.books| && k < 256 && EstablishedMatches(con, n) && ChannelsDeliverable(con, n.books)
    ensures var chan := con.channels.value[k];
            var after := chan.(sendQueue := chan.sendQueue + [Entry(DataPacket(con, k, chan, data), now, 0)],
                               seqNo := Next32(chan.seqNo));
            var b := n.books[k].(sent := n.books[k].sent + [data]);
            ChannelMatches(after, k, b, n.id, n.seq0, n.ack0) && Deliverable(after, b)
  {
    var b := n.books[k];
    NextModulus(n.seq0 + |b.sent|);
    var chan := con.channels.value[k];
    var after := b.(sent := b.sent + [data]);
    forall j | 0 <= j < |chan.sendQueue|
      ensures Carries(chan.sendQueue[j].packet, k, after, n.id, n.seq0, b.base + j)
    {
      assert Carries(chan.sendQueue[j].packet, k, b, n.id, n.seq0, b.base + j);
    }
  }

  lemma SendKeepsInv(n: Node, slot: nat, channel: U8, data: Payload, now: nat)
    requires NodeInv(n) && slot < |n.ctx.conns|
    ensures NodeInv(ActSend(n, slot, channel, data, now))
  {
    var n' := ActSend(n, slot, channel, data, now);
    SendOk(n.ctx, slot, channel, data, now);
    if Send(n.ctx, slot, channel, data, now).1.Success? {
      var con := n.ctx.conns[slot];
      SendKeepsMatch(n, con, channel, data, now);
      var after := n'.ctx.conns[slot];
      assert SlotInv(after, n');
      SlotReplacedKeepsSent(n, n', slot, after);
    }
  }

  lemma SlotReplacedKeepsSent(n: Node, n': Node, i: nat, con: Conn)
    requires NodeInv(n) && SlotReplaced(n, n', i, con) && n.established == 1 && i == n.slot
    requires SlotInv(con, n')
    ensures NodeInv(n')
  {
    SlotReplacedKeepsInv(n, n', i, con);
  }

  lemma PopKeepsMatch(n: Node, con: Conn, k: nat)
    requires k < |n.books| && ChannelsDeliverable(con, n.books)
    requires con.channels.Some? && con.channels.value[k].recvQueue != []
    ensures var chan := con.channels.value[k];
            var after := chan.(recvQueue := chan.recvQueue[1..]);
            var b := n.books[k].(popped := n.books[k].popped + [chan.recvQueue[0].payload]);
            && Deliverable(after, b) && Delivered(b)
            && (ChannelMatches(chan, k, n.books[k], n.id, n.seq0, n.ack0)
                ==> ChannelMatches(after, k, b, n.id, n.seq0, n.ack0))
  {
    var chan := con.channels.value[k];
    var after := chan.(recvQueue := chan.recvQueue[1..]);
    var b := n.books[k].(popped := n.books[k].popped + [chan.recvQueue[0].payload]);
    assert Deliverable(chan, n.books[k]);
    assert n.books[k].popped + Payloads(chan.recvQueue) == b.popped + Payloads(after.recvQueue);
    DeliverableIsDelivered(after, b);
    if ChannelMatches(chan, k, n.books[k], n.id, n.seq0, n.ack0) {
      forall j | 0 <= j < |after.sendQueue| ensures Carries(after.sendQueue[j].packet, k, b, n.id, n.seq0, b.base + j) {
        assert Carries(chan.sendQueue[j].packet, k, n.books[k], n.id, n.seq0, n.books[k].base + j);
      }
    }
  }

  lemma PopKeepsInv(n: Node, slot: nat, channel: U8, buflen: nat)
    requires NodeInv(n) && slot < |n.ctx.conns| && n.ctx.conns[slot].channels.Some?
    ensures NodeInv(ActPop(n, slot, channel, buflen))
  {
    var n' := ActPop(n, slot, channel, buflen);
    PopDataOk(n.ctx, slot, channel, buflen);
    var con := n.ctx.conns[slot];
    if PopData(n.ctx, slot, channel, buflen).1.Success? {
      assert !NothingToPop(con);
      PopKeepsMatch(n, con, channel);
      var after := n'.ctx.conns[slot];
      assert SlotInv(after, n');
      SlotReplacedKeepsSent(n, n', slot, after);
    }
  }

  /** The invariant of one end, over every action and every packet. */
  lemma ActKeepsInv(n: Node, a: Action, now: nat)
    requires NodeInv(n) && ActionOk(n, a)
    requires Act(n, a, now).0.established <= 1
    ensures NodeInv(Act(n, a, now).0)
  {
    match a
    case Recv(p, from, sendOk) => RecvKeepsInv(n, p, from, sendOk, now);
    case Timers => TimersKeepInv(n, now);
    case SendData(slot, channel, data) => SendKeepsInv(n, slot, channel, data, now);
    case Pop(slot, channel, buflen) => PopKeepsInv(n, slot, channel, buflen);
    case Poll =>
    case CloseConn(slot) =>
      var n' := Act(n, a, now).0;
      QuietChangeKeepsInv(n, n', slot, n'.ctx.conns[slot]);
    case ConnectTo(addrOk) =>
      var n' := Act(n, a, now).0;
      QuietChangeKeepsInv(n, n', 0, n'.ctx.conns[0]);
  }
}
