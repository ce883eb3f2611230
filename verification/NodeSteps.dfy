/**
 What one action can do to the record of a channel, and which packets it can send. These are the only
 facts about the inside of an endpoint that the theorems about two endpoints use.
 */
module NodeSteps {
  import opened Wrappers
  import opened Protocol
  import opened Endpoint
  import opened Node

  // ---------- Effect on the record ----------

  /** Either nothing about channel `k` changed, or exactly one of the four things that can happen did. */
  ghost predicate BookStep(n: Node, a: Action, b: Book, b': Book, k: nat) {
    && (a.Pop? || b'.popped == b.popped)
    && (|| (b'.sent == b.sent && b'.base == b.base && b'.accepted == b.accepted)
        || (a.SendData? && b' == b.(sent := b.sent + [a.data]))
        || (b'.sent == b.sent && b'.accepted == b.accepted && b'.base == b.base + 1 && Dequeues(n, a, b, k))
        || (b'.sent == b.sent && b'.base == b.base && Accepts(n, a, b, b', k)))
  }

  /** The head left the send queue: acknowledged, or sent on a channel nobody acknowledges. */
  ghost predicate Dequeues(n: Node, a: Action, b: Book, k: nat) {
    && n.established == 1
    && b.base < |b.sent|
    && (k < |n.ctx.reliable| && n.ctx.reliable[k] ==>
          && a.Recv? && a.packet.ctrl == DATA_ACK && a.packet.channel == k && a.packet.connId == n.id
          && a.packet.ackNo == (n.seq0 + b.base) % MODULUS)
  }

  /** The payload of a DATA packet was accepted: on a reliable channel, only the one expected. */
  ghost predicate Accepts(n: Node, a: Action, b: Book, b': Book, k: nat) {
    && n.established == 1
    && a.Recv? && a.packet.ctrl == DATA && a.packet.channel == k && a.packet.connId == n.id
    && b'.accepted == b.accepted + [a.packet.payload]
    && (k < |n.ctx.reliable| && n.ctx.reliable[k] ==> a.packet.seqNo == (n.ack0 + |b.accepted|) % MODULUS)
  }

  lemma RecvBookStep(n: Node, p: Packet, from: Addr, sendOk: bool, now: nat, k: nat)
    requires NodeInv(n) && k < |n.books|
    ensures BookStep(n, Recv(p, from, sendOk), n.books[k], ActRecv(n, p, from, sendOk, now).0.books[k], k)
  {
    var n' := ActRecv(n, p, from, sendOk, now).0;
    var slot := HandlingSlot(n.ctx, p);
    if slot.Some? && n.ctx.conns[slot.value].state.Established? {
      var before := n.ctx.conns[n.slot];
      if p.ctrl == SYN_ACK {
        assert n'.books[k] == n.books[k];
      } else {
        EstablishedBookStep(n, p, from, sendOk, now, k);
      }
    }
  }

  lemma EstablishedBookStep(n: Node, p: Packet, from: Addr, sendOk: bool, now: nat, k: nat)
    requires NodeInv(n) && k < |n.books|
    requires IsAddressed(p) && FindById(n.ctx.conns, p.connId) == Some(n.slot)
    requires n.ctx.conns[n.slot].state.Established?
    ensures BookStep(n, Recv(p, from, sendOk), n.books[k], ActRecv(n, p, from, sendOk, now).0.books[k], k)
  {
    var before := n.ctx.conns[n.slot];
    var after := AddressedEffect(before, p, from, now, sendOk, n.ctx.reliable).con;
    assert ActRecv(n, p, from, sendOk, now).0.books == Observe(n.books, before, after, p.payload);
    if p.ctrl == DATA {
      DataBookStep(n, p, from, sendOk, k);
    } else if p.ctrl == DATA_ACK {
      DataAckBookStep(n, p, from, sendOk, k);
    } else {
      ObserveUnmoved(n.books, before, after, p.payload);
    }
  }

  lemma ObserveUnmoved(books: seq<Book>, before: Conn, after: Conn, payload: Payload)
    requires after.channels == before.channels || !after.state.Established?
    ensures Observe(books, before, after, payload) == books
  {
  }

  lemma DataBookStep(n: Node, p: Packet, from: Addr, sendOk: bool, k: nat)
    requires NodeInv(n) && k < |n.books| && p.ctrl == DATA && p.connId == n.id
    requires n.ctx.conns[n.slot].state.Established?
    ensures var before := n.ctx.conns[n.slot];
            var after := DataEffect(before, p, from, n.ctx.reliable).con;
            BookStep(n, Recv(p, from, sendOk), n.books[k], Observe(n.books, before, after, p.payload)[k], k)
  {
    var before := n.ctx.conns[n.slot];
    var after := DataEffect(before, p, from, n.ctx.reliable).con;
    if after.channels != before.channels {
      DataAdvances(before, p, from, n.ctx.reliable);
      ObserveOneChannel(n.books, before, after, p.channel, p.payload);
      if k == p.channel {
        assert ChannelMatches(before.channels.value[k], k, n.books[k], n.id, n.seq0, n.ack0);
        AdvanceAccepts(n, Recv(p, from, sendOk), before.channels.value[k], after.channels.value[k], k);
      }
    } else {
      ObserveUnmoved(n.books, before, after, p.payload);
    }
  }

  /** A counter that moved is a packet accepted. */
  lemma AdvanceAccepts(n: Node, a: Action, chan: Chan, after: Chan, k: nat)
    requires n.established == 1 && k < |n.books| && k < |n.ctx.reliable|
    requires a.Recv? && a.packet.ctrl == DATA && a.packet.channel == k && a.packet.connId == n.id
    requires chan.ackNo == (n.ack0 + |n.books[k].accepted|) % MODULUS && after.ackNo == Next32(chan.ackNo)
    requires after.sendQueue == chan.sendQueue && (n.ctx.reliable[k] ==> a.packet.seqNo == chan.ackNo)
    ensures BookStep(n, a, n.books[k], ObserveChannel(n.books[k], chan, after, a.packet.payload), k)
  {
    NextModulus(n.ack0 + |n.books[k].accepted|);
  }

  /** The one way a DATA packet changes a channel. */
  lemma DataAdvances(con: Conn, p: Packet, from: Addr, reliable: seq<bool>)
    requires con.state.Established? && ConnOk(con, reliable)
    requires DataEffect(con, p, from, reliable).con.channels != con.channels
    ensures p.channel < |reliable|
    ensures var after := DataEffect(con, p, from, reliable).con;
            && after.state == con.state
            && after.channels.Some? && |after.channels.value| == |con.channels.value|
            && after.channels.value == con.channels.value[p.channel := after.channels.value[p.channel]]
            && after.channels.value[p.channel].sendQueue == con.channels.value[p.channel].sendQueue
            && after.channels.value[p.channel].ackNo == Next32(con.channels.value[p.channel].ackNo)
            && (reliable[p.channel] ==> p.seqNo == con.channels.value[p.channel].ackNo)
  {
    assert ChanOk(con.channels.value[p.channel], reliable[p.channel]);
  }

  lemma DataAckBookStep(n: Node, p: Packet, from: Addr, sendOk: bool, k: nat)
    requires NodeInv(n) && k < |n.books| && p.ctrl == DATA_ACK && p.connId == n.id
    requires n.ctx.conns[n.slot].state.Established?
    ensures var before := n.ctx.conns[n.slot];
            var after := DataAckEffect(before, p, n.ctx.reliable).con;
            BookStep(n, Recv(p, from, sendOk), n.books[k], Observe(n.books, before, after, p.payload)[k], k)
  {
    var before := n.ctx.conns[n.slot];
    var after := DataAckEffect(before, p, n.ctx.reliable).con;
    if p.channel < |n.books| {
      var chan := before.channels.value[p.channel];
      assert ChannelMatches(chan, p.channel, n.books[p.channel], n.id, n.seq0, n.ack0);
      if after.channels != before.channels {
        assert Carries(chan.sendQueue[0].packet, p.channel, n.books[p.channel], n.id, n.seq0, n.books[p.channel].base);
        ObserveOneChannel(n.books, before, after, p.channel, p.payload);
      }
    }
  }

  /** The timers take at most the head of each send queue, and only where nobody acknowledges it. */
  lemma TransmitBookStep(n: Node, before: Conn, now: nat, k: nat)
    requires before.state.Established? && ConnOk(before, n.ctx.reliable) && k < |n.books| == |n.ctx.reliable|
    requires n.established == 1 && ChannelMatches(before.channels.value[k], k, n.books[k], n.id, n.seq0, n.ack0)
    ensures var after := TransmitFrom(before, 0, now).con;
            BookStep(n, Timers, n.books[k], Observe(n.books, before, after, [])[k], k)
  {
    TransmitFromChannel(before, 0, now, k);
    assert ChanOk(before.channels.value[k], n.ctx.reliable[k]);
  }

  lemma TimersBookStep(n: Node, now: nat, k: nat)
    requires NodeInv(n) && k < |n.books|
    ensures BookStep(n, Timers, n.books[k], ActTimers(n, now).0.books[k], k)
  {
    var before := n.ctx.conns[n.slot];
    TimersFromConn(n.ctx, 0, now, n.slot);
    if before.state.Established? {
      EstablishedTimersBook(n, before, now);
      TransmitBookStep(n, before, now, k);
    }
  }

  lemma EstablishedTimersBook(n: Node, before: Conn, now: nat)
    requires before.state.Established? && ConnOk(before, n.ctx.reliable)
    ensures Observe(n.books, before, TimerEffect(before, now, n.ctx.reliable).con, [])
         == if TimerEffect(before, now, n.ctx.reliable).con.state.Established?
            then Observe(n.books, before, TransmitFrom(before, 0, now).con, []) else n.books
  {
    TransmitFromKeepsState(before, 0, now);
  }

  lemma {:induction false} TransmitFromKeepsState(con: Conn, ch: nat, now: nat)
    requires con.channels.Some? && ch <= |con.channels.value|
    ensures TransmitFrom(con, ch, now).con.state == con.state
    decreases |con.channels.value| - ch
  {
    if ch < |con.channels.value| {
      var t := TransmitHead(con.channels.value[ch], con.peer, now);
      TransmitFromKeepsState(SetChannel(con, ch, t.chan).(lossCount := con.lossCount + t.losses), ch + 1, now);
    }
  }

  lemma ActBookStep(n: Node, a: Action, now: nat, k: nat)
    requires NodeInv(n) && ActionOk(n, a) && k < |n.books|
    ensures |Act(n, a, now).0.books| == |n.books|
    ensures BookStep(n, a, n.books[k], Act(n, a, now).0.books[k], k)
  {
    match a
    case Recv(p, from, sendOk) => RecvBookStep(n, p, from, sendOk, now, k);
    case Timers => TimersBookStep(n, now, k);
    case _ =>
  }

  /** The configuration never changes, and the first counters only when a connection is established. */
  lemma ActFrame(n: Node, a: Action, now: nat)
    requires CtxOk(n.ctx) && ActionOk(n, a)
    ensures var n' := Act(n, a, now).0;
            && n'.ctx.iss == n.ctx.iss && n'.ctx.reliable == n.ctx.reliable && n'.ctx.server == n.ctx.server
            && |n'.ctx.conns| == |n.ctx.conns|
            && n.established <= n'.established <= n.established + 1
            && (n'.established == n.established ==>
                  n'.id == n.id && n'.seq0 == n.seq0 && n'.ack0 == n.ack0 && n'.slot == n.slot && n'.agreed == n.agreed)
  {
    match a
    case Recv(p, from, sendOk) => ReceiveFrame(n.ctx, p, from, now, sendOk);
    case Timers => TimersFrame(n.ctx, 0, now);
    case _ =>
  }

  lemma ReceiveFrame(c: Ctx, p: Packet, from: Addr, now: nat, sendOk: bool)
    requires CtxOk(c)
    ensures var c' := Receive(c, p, from, now, sendOk).ctx;
            c'.iss == c.iss && c'.reliable == c.reliable && c'.server == c.server && |c'.conns| == |c.conns|
  {
  }

  lemma {:induction false} TimersFrame(c: Ctx, slot: nat, now: nat)
    requires CtxOk(c) && slot <= |c.conns|
    ensures var c' := TimersFrom(c, slot, now).ctx;
            c'.iss == c.iss && c'.reliable == c.reliable && c'.server == c.server && |c'.conns| == |c.conns|
    decreases |c.conns| - slot
  {
    if slot < |c.conns| {
      TimerOutcomeOk(c, slot, now);
      TimersFrame(TimerOutcome(c, slot, now).ctx, slot + 1, now);
    }
  }

  // ---------- Packets sent ----------

  /** A DATA packet is the head of a send queue of the established slot. */
  ghost predicate SendsHead(n: Node, a: Action, q: Packet) {
    && a.Timers? && n.established == 1
    && q.channel < |n.books|
    && Carries(q, q.channel, n.books[q.channel], n.id, n.seq0, n.books[q.channel].base)
  }

  /** A DATA|ACK echoes a packet that has been accepted, now or before. */
  ghost predicate SendsDataAck(n: Node, a: Action, n': Node, q: Packet) {
    && a.Recv? && a.packet.ctrl == DATA && a.packet.channel == q.channel
    && n.established == 1 && q.connId == n.id
    && q.channel < |n.books| && q.channel < |n'.books| && q.channel < |n.ctx.reliable| && n.ctx.reliable[q.channel]
    && q.ackNo == a.packet.seqNo
    && (q.ackNo < (n.ack0 + |n.books[q.channel].accepted|) % MODULUS
        || |n'.books[q.channel].accepted| == |n.books[q.channel].accepted| + 1)
  }

  /** A handshake ACK carries the identifier and the counters of the first channel. */
  ghost predicate SendsAck(n: Node, a: Action, n': Node, q: Packet) {
    && a.Recv? && a.packet.ctrl == SYN_ACK && n'.established >= 1
    && |n'.ctx.conns| >= 1 && n'.ctx.conns[0].state.Established?
    && n'.ctx.conns[0].channels.Some? && n'.ctx.conns[0].channels.value != []
    && q.connId == n'.ctx.conns[0].connId
    && q.seqNo == n'.ctx.conns[0].channels.value[0].seqNo
    && q.ackNo == n'.ctx.conns[0].channels.value[0].ackNo
  }

  ghost predicate SendsSyn(n: Node, a: Action, q: Packet) {
    a.Timers? && exists i :: 0 <= i < |n.ctx.conns| && n.ctx.conns[i].state.SynSent?
                          && q == HandshakePacket(n.ctx.conns[i], SYN)
  }

  ghost predicate SendsSynAck(n: Node, a: Action, q: Packet) {
    a.Timers? && exists i :: 0 <= i < |n.ctx.conns| && n.ctx.conns[i].state.SynRcvd?
                          && q == HandshakePacket(n.ctx.conns[i], SYN_ACK)
  }

  /** Every packet an action sends, by kind. */
  ghost predicate SendStep(n: Node, a: Action, n': Node, q: Packet) {
    && (q.ctrl == DATA ==> SendsHead(n, a, q))
    && (q.ctrl == DATA_ACK ==> SendsDataAck(n, a, n', q))
    && (q.ctrl == ACK ==> SendsAck(n, a, n', q))
    && (q.ctrl == SYN ==> SendsSyn(n, a, q))
    && (q.ctrl == SYN_ACK ==> SendsSynAck(n, a, q))
    && (a.Recv? || a.Timers?)
  }

  /** Where a datagram of the timers comes from. */
  lemma {:induction false} TimersSend(c: Ctx, slot: nat, now: nat, d: Datagram) returns (k: nat)
    requires CtxOk(c) && slot <= |c.conns|
    requires d in TimersFrom(c, slot, now).sent
    ensures slot <= k < |c.conns| && d in TimerEffect(c.conns[k], now, c.reliable).sent
    decreases |c.conns| - slot
  {
    var here := TimerOutcome(c, slot, now);
    TimerOutcomeOk(c, slot, now);
    if d in here.sent {
      k := slot;
    } else {
      k := TimersSend(here.ctx, slot + 1, now, d);
    }
  }

  lemma {:induction false} TransmitFromSends(con: Conn, ch: nat, now: nat, d: Datagram) returns (k: nat)
    requires con.channels.Some? && ch <= |con.channels.value|
    requires d in TransmitFrom(con, ch, now).sent
    ensures ch <= k < |con.channels.value|
    ensures con.channels.value[k].sendQueue != []
    ensures d == Datagram(con.peer, con.channels.value[k].sendQueue[0].packet)
    decreases |con.channels.value| - ch
  {
    var t := TransmitHead(con.channels.value[ch], con.peer, now);
    if d in t.sent {
      k := ch;
    } else {
      k := TransmitFromSends(SetChannel(con, ch, t.chan).(lossCount := con.lossCount + t.losses), ch + 1, now, d);
    }
  }

  lemma EstablishedTimersSend(n: Node, now: nat, d: Datagram)
    requires NodeInv(n) && n.ctx.conns[n.slot].state.Established?
    requires d in TimerEffect(n.ctx.conns[n.slot], now, n.ctx.reliable).sent
    ensures SendStep(n, Timers, ActTimers(n, now).0, d.packet)
  {
    var con := n.ctx.conns[n.slot];
    if d in TransmitFrom(con, 0, now).sent {
      var k := TransmitFromSends(con, 0, now, d);
      assert ChannelMatches(con.channels.value[k], k, n.books[k], n.id, n.seq0, n.ack0);
      assert Carries(con.channels.value[k].sendQueue[0].packet, k, n.books[k], n.id, n.seq0, n.books[k].base);
    } else {
      assert d.packet.ctrl == PING;
    }
  }

  lemma TimersSendStep(n: Node, now: nat, d: Datagram)
    requires NodeInv(n) && d in ActTimers(n, now).1
    ensures SendStep(n, Timers, ActTimers(n, now).0, d.packet)
  {
    var i := TimersSend(n.ctx, 0, now, d);
    if n.ctx.conns[i].state.Established? {
      EstablishedTimersSend(n, now, d);
    }
  }

  lemma DataSendStep(n: Node, p: Packet, from: Addr, sendOk: bool, d: Datagram)
    requires NodeInv(n) && p.ctrl == DATA && n.ctx.conns[n.slot].state.Established?
    requires d in DataEffect(n.ctx.conns[n.slot], p, from, n.ctx.reliable).sent
    ensures var after := DataEffect(n.ctx.conns[n.slot], p, from, n.ctx.reliable).con;
            SendsDataAck(n, Recv(p, from, sendOk), n.(books := Observe(n.books, n.ctx.conns[n.slot], after, p.payload)), d.packet)
    ensures d.packet.ctrl == DATA_ACK
  {
    var before := n.ctx.conns[n.slot];
    var after := DataEffect(before, p, from, n.ctx.reliable).con;
    var chan := before.channels.value[p.channel];
    assert ChannelMatches(chan, p.channel, n.books[p.channel], n.id, n.seq0, n.ack0);
    assert ChanOk(chan, n.ctx.reliable[p.channel]);
    NextModulus(n.ack0 + |n.books[p.channel].accepted|);
    if after.channels != before.channels {
      ObserveOneChannel(n.books, before, after, p.channel, p.payload);
    }
  }

  lemma RecvSendStep(n: Node, p: Packet, from: Addr, sendOk: bool, now: nat, d: Datagram)
    requires NodeInv(n) && d in ActRecv(n, p, from, sendOk, now).1
    ensures SendStep(n, Recv(p, from, sendOk), ActRecv(n, p, from, sendOk, now).0, d.packet)
  {
    if p.ctrl == SYN_ACK {
      SynAckSendStep(n, p, from, sendOk, now, d);
    } else if p.ctrl == DATA {
      DataHandledInSlot(n, p, from, sendOk, now, d);
      DataSendStep(n, p, from, sendOk, d);
    } else {
      OtherSends(n.ctx, p, from, sendOk, now, d);
    }
  }

  /** Only the established slot answers a DATA packet. */
  lemma DataHandledInSlot(n: Node, p: Packet, from: Addr, sendOk: bool, now: nat, d: Datagram)
    requires NodeInv(n) && p.ctrl == DATA && d in ActRecv(n, p, from, sendOk, now).1
    ensures n.ctx.conns[n.slot].state.Established? && n.established == 1
    ensures var before := n.ctx.conns[n.slot];
            var e := DataEffect(before, p, from, n.ctx.reliable);
            && d in e.sent
            && ActRecv(n, p, from, sendOk, now).0.books == Observe(n.books, before, e.con, p.payload)
  {
    assert FindById(n.ctx.conns, p.connId) == Some(n.slot);
  }

  /** Other packets are answered with RST, PONG or FIN|ACK. */
  lemma OtherSends(c: Ctx, p: Packet, from: Addr, sendOk: bool, now: nat, d: Datagram)
    requires CtxOk(c) && p.ctrl != SYN_ACK && p.ctrl != DATA && d in Receive(c, p, from, now, sendOk).sent
    ensures d.packet.ctrl == RST || d.packet.ctrl == PONG || d.packet.ctrl == FIN_ACK
  {
  }

  lemma SynAckSendStep(n: Node, p: Packet, from: Addr, sendOk: bool, now: nat, d: Datagram)
    requires NodeInv(n) && p.ctrl == SYN_ACK && d in ActRecv(n, p, from, sendOk, now).1
    ensures SendStep(n, Recv(p, from, sendOk), ActRecv(n, p, from, sendOk, now).0, d.packet)
  {
    ReceiveOk(n.ctx, p, from, now, sendOk);
    assert d.packet.ctrl == ACK;
  }

  lemma ActSendStep(n: Node, a: Action, now: nat, d: Datagram)
    requires NodeInv(n) && ActionOk(n, a) && d in Act(n, a, now).1
    ensures SendStep(n, a, Act(n, a, now).0, d.packet)
  {
    match a
    case Recv(p, from, sendOk) => RecvSendStep(n, p, from, sendOk, now, d);
    case Timers => TimersSendStep(n, now, d);
    case _ =>
  }
}
