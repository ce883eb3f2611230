/**
 What one action can do to one channel of one slot, in any context: any number of slots may be established,
 any number of times, and nothing is assumed of what the network delivers.
 */
module Slots {
  import opened Wrappers
  import opened Protocol
  import opened Endpoint
  import opened Node

  /** Slot `i` is established and has channel `k`. */
  predicate Up(c: Ctx, i: nat, k: nat) {
    && i < |c.conns| && c.conns[i].state.Established? && k < |c.reliable|
    && c.conns[i].channels.Some? && |c.conns[i].channels.value| == |c.reliable|
  }

  function ChanAt(c: Ctx, i: nat, k: nat): Chan
    requires Up(c, i, k)
  {
    c.conns[i].channels.value[k]
  }

  /** Everything that can happen to a channel while its connection stays established. */
  datatype Move =
    | Quiet
    | Sent(entry: Entry)
    | Ticked(now: nat)
    | Acked
    | Accepted(packet: Packet)
    | Popped

  ghost predicate Moved(chan: Chan, peer: Addr, after: Chan, m: Move) {
    match m
    case Quiet => after == chan
    case Sent(entry) => after == chan.(sendQueue := chan.sendQueue + [entry], seqNo := Next32(chan.seqNo))
    case Ticked(now) => after == TransmitHead(chan, peer, now).chan
    case Acked => chan.sendQueue != [] && after == chan.(sendQueue := chan.sendQueue[1..])
    case Accepted(p) =>
      after == chan.(recvQueue := if |chan.recvQueue| < QUEUE_CAPACITY then chan.recvQueue + [p] else chan.recvQueue,
                     ackNo := Next32(chan.ackNo))
    case Popped => chan.recvQueue != [] && after == chan.(recvQueue := chan.recvQueue[1..])
  }

  /**
   A packet that channel `k` of slot `i` accepts: DATA for it, and on a reliable channel the one that is due,
   from anywhere, on an unreliable one any, from the peer.
   */
  predicate Arrives(c: Ctx, p: Packet, from: Addr, i: nat, k: nat)
    requires Up(c, i, k)
  {
    FindById(c.conns, p.connId) == Some(i) && Suits(ChanAt(c, i, k), c.conns[i].peer, p, from, k, c.reliable[k])
  }

  predicate Suits(chan: Chan, peer: Addr, p: Packet, from: Addr, k: nat, reliable: bool) {
    && p.ctrl == DATA && p.channel == k
    && if reliable then p.seqNo == chan.ackNo else from == peer
  }

  /** The action behind a move of channel `k` of slot `i`. */
  ghost predicate Causes(c: Ctx, a: Action, now: nat, i: nat, k: nat, m: Move)
    requires Up(c, i, k)
  {
    var con := c.conns[i];
    match m
    case Quiet => !a.Timers?
    case Sent(entry) =>
      && a.SendData? && a.slot == i && a.channel == k && 1 <= |a.data| <= MTU && k < 256
      && |ChanAt(c, i, k).sendQueue| < QUEUE_CAPACITY
      && var chan := ChanAt(c, i, k);
         entry == Entry(Packet(DATA, k, con.connId, chan.seqNo, chan.ackNo, a.data), now, 0)
    case Ticked(at) => a.Timers? && at == now
    case Acked =>
      a.Recv? && a.packet.ctrl == DATA_ACK && a.packet.channel == k && a.packet.connId == con.connId
      && ChanAt(c, i, k).sendQueue != [] && ChanAt(c, i, k).sendQueue[0].packet.seqNo == a.packet.ackNo
    case Accepted(p) => a.Recv? && a.packet == p && Arrives(c, p, a.from, i, k)
    case Popped =>
      a.Pop? && a.slot == i && a.channel == k && ChanAt(c, i, k).recvQueue != []
      && a.buflen > 0 && a.buflen >= |ChanAt(c, i, k).recvQueue[0].payload|
  }

  /** Slot `i` after an action that found it established and left it so. */
  ghost predicate Stays(c: Ctx, a: Action, now: nat, c': Ctx, i: nat, k: nat, m: Move) {
    && Up(c, i, k) && Up(c', i, k) && c'.reliable == c.reliable
    && c'.conns[i].connId == c.conns[i].connId
    && Causes(c, a, now, i, k, m)
    && Moved(ChanAt(c, i, k), c.conns[i].peer, ChanAt(c', i, k), m)
  }

  /** Slot `i` after the action that established it: empty queues, equal numbers. */
  ghost predicate Opens(c: Ctx, a: Action, c': Ctx, i: nat, k: nat) {
    && i < |c.conns| && !c.conns[i].state.Established? && Up(c', i, k)
    && a.Recv? && (a.packet.ctrl == ACK || a.packet.ctrl == SYN_ACK)
    && ChanAt(c', i, k).sendQueue == [] && ChanAt(c', i, k).recvQueue == []
    && ChanAt(c', i, k).ackNo == a.packet.seqNo
  }

  // ---------- Receiving ----------

  lemma AddressedMoves(con: Conn, p: Packet, from: Addr, now: nat, sendOk: bool, reliable: seq<bool>, k: nat)
      returns (m: Move)
    requires con.state.Established? && ConnOk(con, reliable) && IsAddressed(p) && k < |reliable|
    requires AddressedEffect(con, p, from, now, sendOk, reliable).con.state.Established?
    ensures var after := AddressedEffect(con, p, from, now, sendOk, reliable).con;
            && after.connId == con.connId
            && after.channels.Some? && |after.channels.value| == |reliable|
            && Moved(con.channels.value[k], con.peer, after.channels.value[k], m)
    ensures match m
            case Quiet => true
            case Acked => p.ctrl == DATA_ACK && p.channel == k
                          && con.channels.value[k].sendQueue[0].packet.seqNo == p.ackNo
            case Accepted(q) => p == q
            case _ => false
    ensures m.Accepted? <==> Suits(con.channels.value[k], con.peer, p, from, k, reliable[k])
  {
    assert ChanOk(con.channels.value[k], reliable[k]);
    var after := AddressedEffect(con, p, from, now, sendOk, reliable).con;
    if after.channels == con.channels || p.channel != k {
      m := Quiet;
    } else if p.ctrl == DATA {
      m := Accepted(p);
    } else {
      m := Acked;
    }
  }

  /** Packets that are not addressed to an established slot leave it alone. */
  lemma OtherPacketsSpare(c: Ctx, p: Packet, from: Addr, now: nat, sendOk: bool, i: nat)
    requires CtxOk(c) && i < |c.conns| && c.conns[i].state.Established?
    requires p.ctrl == SYN || p.ctrl == SYN_ACK || p.ctrl == PING || !IsAddressed(p) || FindById(c.conns, p.connId) != Some(i)
    ensures var c' := Receive(c, p, from, now, sendOk).ctx;
            && |c'.conns| == |c.conns| && c'.reliable == c.reliable
            && c'.conns[i].state.Established? && c'.conns[i].connId == c.conns[i].connId
            && c'.conns[i].channels == c.conns[i].channels
  {
  }

  lemma RecvStays(n: Node, p: Packet, from: Addr, sendOk: bool, now: nat, i: nat, k: nat) returns (m: Move)
    requires CtxOk(n.ctx) && Up(n.ctx, i, k)
    requires Up(Receive(n.ctx, p, from, now, sendOk).ctx, i, k)
    ensures Stays(n.ctx, Recv(p, from, sendOk), now, Receive(n.ctx, p, from, now, sendOk).ctx, i, k, m)
    ensures m.Accepted? <==> Arrives(n.ctx, p, from, i, k)
  {
    if p.ctrl == SYN || p.ctrl == SYN_ACK || p.ctrl == PING || !IsAddressed(p) || FindById(n.ctx.conns, p.connId) != Some(i) {
      OtherPacketsSpare(n.ctx, p, from, now, sendOk, i);
      m := Quiet;
    } else {
      m := AddressedMoves(n.ctx.conns[i], p, from, now, sendOk, n.ctx.reliable, k);
    }
  }

  lemma RecvOpens(c: Ctx, p: Packet, from: Addr, sendOk: bool, now: nat, i: nat, k: nat)
    requires CtxOk(c) && i < |c.conns| && !c.conns[i].state.Established?
    requires Up(Receive(c, p, from, now, sendOk).ctx, i, k)
    ensures Opens(c, Recv(p, from, sendOk), Receive(c, p, from, now, sendOk).ctx, i, k)
  {
    if p.ctrl != SYN && p.ctrl != SYN_ACK && p.ctrl != PING && IsAddressed(p) {
      var slot := FindById(c.conns, p.connId);
      if slot == Some(i) {
        AddressedWhenNotEstablished(c.conns[i], p, from, now, sendOk, c.reliable);
      }
    }
  }

  // ---------- Timers ----------

  lemma TimerMoves(con: Conn, now: nat, reliable: seq<bool>, k: nat)
    requires con.state.Established? && ConnOk(con, reliable) && k < |reliable|
    requires TimerEffect(con, now, reliable).con.state.Established?
    ensures var after := TimerEffect(con, now, reliable).con;
            && after.connId == con.connId && after.channels.Some? && |after.channels.value| == |reliable|
            && after.channels.value[k] == TransmitHead(con.channels.value[k], con.peer, now).chan
  {
    TransmitFromChannel(con, 0, now, k);
    TransmitFromOk(con, 0, now, reliable);
  }

  lemma TimersStay(c: Ctx, now: nat, i: nat, k: nat)
    requires CtxOk(c) && Up(c, i, k) && Up(TimersFrom(c, 0, now).ctx, i, k)
    ensures Stays(c, Timers, now, TimersFrom(c, 0, now).ctx, i, k, Ticked(now))
  {
    TimersFromOk(c, 0, now);
    TimersFromConn(c, 0, now, i);
    TimerMoves(c.conns[i], now, c.reliable, k);
  }

  /** What slot `i` contributes to the datagrams of an action; `TimersSentBySlots` puts these together. */
  function SlotSent(c: Ctx, a: Action, now: nat, i: nat): seq<Datagram>
    requires CtxOk(c)
  {
    if a.Timers? && i < |c.conns| then TimerEffect(c.conns[i], now, c.reliable).sent else []
  }

  function SentFrom(c: Ctx, slot: nat, now: nat): seq<Datagram>
    requires CtxOk(c) && slot <= |c.conns|
    decreases |c.conns| - slot
  {
    if slot == |c.conns| then [] else SlotSent(c, Timers, now, slot) + SentFrom(c, slot + 1, now)
  }

  /** The datagrams of the timers are those of the slots, in slot order. */
  lemma {:induction false} TimersSentBySlots(c: Ctx, now: nat, done: Ctx, slot: nat)
    requires CtxOk(c) && CtxOk(done) && slot <= |c.conns| == |done.conns| && done.reliable == c.reliable
    requires forall i :: slot <= i < |c.conns| ==> done.conns[i] == c.conns[i]
    ensures TimersFrom(done, slot, now).sent == SentFrom(c, slot, now)
    decreases |c.conns| - slot
  {
    if slot < |c.conns| {
      TimerOutcomeOk(done, slot, now);
      TimersSentBySlots(c, now, TimerOutcome(done, slot, now).ctx, slot + 1);
    }
  }

  // ---------- Calls ----------

  lemma SendStays(n: Node, slot: nat, channel: U8, data: Payload, now: nat, i: nat, k: nat) returns (m: Move)
    requires CtxOk(n.ctx) && slot < |n.ctx.conns| && Up(n.ctx, i, k)
    ensures Stays(n.ctx, SendData(slot, channel, data), now, ActSend(n, slot, channel, data, now).ctx, i, k, m)
  {
    var con := n.ctx.conns[i];
    if slot == i && channel == k && Send(n.ctx, slot, channel, data, now).1.Success? {
      m := Sent(Entry(DataPacket(con, k, con.channels.value[k], data), now, 0));
    } else {
      m := Quiet;
    }
  }

  lemma PopStays(n: Node, slot: nat, channel: U8, buflen: nat, now: nat, i: nat, k: nat) returns (m: Move)
    requires CtxOk(n.ctx) && slot < |n.ctx.conns| && n.ctx.conns[slot].channels.Some? && Up(n.ctx, i, k)
    ensures Stays(n.ctx, Pop(slot, channel, buflen), now, ActPop(n, slot, channel, buflen).ctx, i, k, m)
  {
    if slot == i && channel == k && PopData(n.ctx, slot, channel, buflen).1.Success? {
      m := Popped;
    } else {
      m := Quiet;
    }
  }

  lemma CallStays(n: Node, a: Action, now: nat, i: nat, k: nat)
    requires CtxOk(n.ctx) && ActionOk(n, a) && Up(n.ctx, i, k)
    requires a.CloseConn? || a.ConnectTo? || a.Poll?
    requires Up(Act(n, a, now).0.ctx, i, k)
    ensures Stays(n.ctx, a, now, Act(n, a, now).0.ctx, i, k, Quiet)
  {
  }

  // ---------- Every action ----------

  lemma ActStays(n: Node, a: Action, now: nat, i: nat, k: nat) returns (m: Move)
    requires CtxOk(n.ctx) && ActionOk(n, a) && Up(n.ctx, i, k) && Up(Act(n, a, now).0.ctx, i, k)
    ensures Stays(n.ctx, a, now, Act(n, a, now).0.ctx, i, k, m)
    ensures m.Accepted? <==> a.Recv? && Arrives(n.ctx, a.packet, a.from, i, k)
  {
    match a
    case Recv(p, from, sendOk) => m := RecvStays(n, p, from, sendOk, now, i, k);
    case Timers =>
      TimersStay(n.ctx, now, i, k);
      m := Ticked(now);
    case SendData(slot, channel, data) => m := SendStays(n, slot, channel, data, now, i, k);
    case Pop(slot, channel, buflen) => m := PopStays(n, slot, channel, buflen, now, i, k);
    case _ =>
      CallStays(n, a, now, i, k);
      m := Quiet;
  }

  lemma ActOpens(n: Node, a: Action, now: nat, i: nat, k: nat)
    requires CtxOk(n.ctx) && ActionOk(n, a) && i < |n.ctx.conns| && !n.ctx.conns[i].state.Established?
    requires Up(Act(n, a, now).0.ctx, i, k)
    ensures Opens(n.ctx, a, Act(n, a, now).0.ctx, i, k)
  {
    match a
    case Recv(p, from, sendOk) => RecvOpens(n.ctx, p, from, sendOk, now, i, k);
    case Timers =>
      TimersFromConn(n.ctx, 0, now, i);
      TimersWhenNotEstablished(n.ctx.conns[i], now, n.ctx.reliable);
    case _ => CallsOpenNothing(n, a, now, i);
  }

  lemma CallsOpenNothing(n: Node, a: Action, now: nat, i: nat)
    requires CtxOk(n.ctx) && ActionOk(n, a) && !a.Recv? && !a.Timers?
    requires i < |n.ctx.conns| && !n.ctx.conns[i].state.Established?
    ensures var c' := Act(n, a, now).0.ctx; i < |c'.conns| && !c'.conns[i].state.Established?
  {
  }

  /** No action adds or removes a slot or a channel. */
  lemma ActKeepsSlots(n: Node, a: Action, now: nat)
    requires CtxOk(n.ctx) && ActionOk(n, a)
    ensures var c' := Act(n, a, now).0.ctx;
            |c'.conns| == |n.ctx.conns| && c'.reliable == n.ctx.reliable && c'.eventCapacity == n.ctx.eventCapacity
  {
    match a
    case Recv(p, from, sendOk) => ReceiveKeepsSlots(n.ctx, p, from, now, sendOk);
    case Timers => TimersKeepSlots(n.ctx, 0, now);
    case _ =>
  }

  lemma ReceiveKeepsSlots(c: Ctx, p: Packet, from: Addr, now: nat, sendOk: bool)
    requires CtxOk(c)
    ensures var c' := Receive(c, p, from, now, sendOk).ctx;
            |c'.conns| == |c.conns| && c'.reliable == c.reliable && c'.eventCapacity == c.eventCapacity
  {
  }

  lemma {:induction false} TimersKeepSlots(c: Ctx, slot: nat, now: nat)
    requires CtxOk(c) && slot <= |c.conns|
    ensures var c' := TimersFrom(c, slot, now).ctx;
            |c'.conns| == |c.conns| && c'.reliable == c.reliable && c'.eventCapacity == c.eventCapacity
    decreases |c.conns| - slot
  {
    if slot < |c.conns| {
      TimerOutcomeOk(c, slot, now);
      TimersKeepSlots(TimerOutcome(c, slot, now).ctx, slot + 1, now);
    }
  }
}
