/**
 Progress of one end: when queued packets are due, what a keepalive owes to the network in every run, and what
 a tick and each kind of packet do to an established connection.
 */
module Progress {
  import opened Wrappers
  import opened Protocol
  import opened Endpoint
  import opened Node
  import opened NodeSteps
  import opened Session
  import opened Slots

  // ---------- When packets are due ----------

  /** Only the head has ever been sent: what is behind it is due, and the head is due within 100 ms. */
  ghost predicate Dated(queue: seq<Entry>, now: nat) {
    forall j :: 0 <= j < |queue| ==> 0 < queue[j].timestamp <= if j == 0 then now + RETRANSMISSION_TIMEOUT else now
  }

  ghost predicate ConnDated(con: Conn, now: nat) {
    con.channels.Some? ==> forall i :: 0 <= i < |con.channels.value| ==> Dated(con.channels.value[i].sendQueue, now)
  }

  ghost predicate CtxDated(c: Ctx, now: nat) {
    forall i :: 0 <= i < |c.conns| ==> ConnDated(c.conns[i], now)
  }

  lemma DequeuedDated(queue: seq<Entry>, now: nat)
    requires Dated(queue, now) && queue != []
    ensures Dated(queue[1..], now)
  {
    forall j | 0 <= j < |queue[1..]|
      ensures 0 < queue[1..][j].timestamp <= if j == 0 then now + RETRANSMISSION_TIMEOUT else now
    {
      assert queue[1..][j] == queue[j + 1];
    }
  }

  lemma AddressedDated(con: Conn, p: Packet, from: Addr, now: nat, sendOk: bool, reliable: seq<bool>)
    requires ConnOk(con, reliable) && IsAddressed(p) && ConnDated(con, now)
    ensures ConnDated(AddressedEffect(con, p, from, now, sendOk, reliable).con, now)
  {
    if p.ctrl == DATA_ACK && con.state.Established? && p.channel < |reliable| {
      var queue := con.channels.value[p.channel].sendQueue;
      if queue != [] {
        DequeuedDated(queue, now);
      }
    }
  }

  lemma ReceiveDated(c: Ctx, p: Packet, from: Addr, now: nat, sendOk: bool)
    requires CtxOk(c) && CtxDated(c, now)
    ensures CtxDated(Receive(c, p, from, now, sendOk).ctx, now)
  {
    if p.ctrl == SYN && p.connId.id == 0xFFFF {
    } else if p.ctrl == SYN_ACK {
      assert ConnDated(c.conns[0], now);
    } else if p.ctrl != PING && IsAddressed(p) {
      var slot := FindById(c.conns, p.connId);
      if slot.Some? {
        AddressedDated(c.conns[slot.value], p, from, now, sendOk, c.reliable);
      }
    }
  }

  lemma TransmitHeadDated(chan: Chan, peer: Addr, now: nat)
    requires Dated(chan.sendQueue, now)
    ensures Dated(TransmitHead(chan, peer, now).chan.sendQueue, now)
  {
    if chan.sendQueue != [] {
      DequeuedDated(chan.sendQueue, now);
    }
  }

  lemma TimerDated(con: Conn, now: nat, reliable: seq<bool>)
    requires ConnOk(con, reliable) && ConnDated(con, now)
    ensures ConnDated(TimerEffect(con, now, reliable).con, now)
  {
    if con.state.Established? {
      var after := TransmitFrom(con, 0, now).con;
      forall i | 0 <= i < |con.channels.value| ensures Dated(after.channels.value[i].sendQueue, now) {
        TransmitFromChannel(con, 0, now, i);
        TransmitHeadDated(con.channels.value[i], con.peer, now);
      }
    }
  }

  lemma TimersDated(c: Ctx, now: nat)
    requires CtxOk(c) && CtxDated(c, now)
    ensures CtxDated(TimersFrom(c, 0, now).ctx, now)
  {
    TimersFromOk(c, 0, now);
    forall i | 0 <= i < |c.conns| ensures ConnDated(TimersFrom(c, 0, now).ctx.conns[i], now) {
      TimersFromConn(c, 0, now, i);
      TimerDated(c.conns[i], now, c.reliable);
    }
  }

  lemma SendDated(c: Ctx, slot: nat, channel: U8, data: Payload, now: nat)
    requires CtxOk(c) && slot < |c.conns| && CtxDated(c, now) && now > 0
    ensures CtxDated(Send(c, slot, channel, data, now).0, now)
  {
    assert ConnDated(c.conns[slot], now);
  }

  lemma ActDated(n: Node, a: Action, now: nat)
    requires CtxOk(n.ctx) && ActionOk(n, a) && CtxDated(n.ctx, now) && now > 0
    ensures CtxDated(Act(n, a, now).0.ctx, now)
  {
    match a
    case Recv(p, from, sendOk) => ReceiveDated(n.ctx, p, from, now, sendOk);
    case Timers => TimersDated(n.ctx, now);
    case SendData(slot, channel, data) => SendDated(n.ctx, slot, channel, data, now);
    case Pop(slot, channel, buflen) =>
      assert ConnDated(n.ctx.conns[slot], now);
    case CloseConn(slot) =>
      assert ConnDated(n.ctx.conns[slot], now);
    case ConnectTo(_) =>
      assert ConnDated(n.ctx.conns[0], now);
    case Poll =>
  }

  ghost predicate SysDated(s: Sys) {
    s.now > 0 && CtxDated(s.client.ctx, s.now) && CtxDated(s.server.ctx, s.now)
  }

  lemma StepDated(s: Sys, st: Step)
    requires SysDated(s) && Enabled(s, st)
    ensures SysDated(Next(s, st))
  {
    match st
    case AtClient(a) => ActDated(s.client, a, s.now);
    case AtServer(a) => ActDated(s.server, a, s.now);
    case Wait(ms) =>
      LaterDated(s.client.ctx, s.now, s.now + ms);
      LaterDated(s.server.ctx, s.now, s.now + ms);
  }

  lemma LaterDated(c: Ctx, now: nat, later: nat)
    requires CtxDated(c, now) && now <= later
    ensures CtxDated(c, later)
  {
    forall i | 0 <= i < |c.conns| ensures ConnDated(c.conns[i], later) {
      assert ConnDated(c.conns[i], now);
    }
  }

  lemma {:induction false} RunDated(s: Sys, steps: seq<Step>)
    requires SysDated(s) && Possible(s, steps)
    ensures SysDated(Final(s, steps))
    decreases |steps|
  {
    if steps != [] {
      StepDated(s, steps[0]);
      RunDated(Next(s, steps[0]), steps[1..]);
    }
  }

  // ---------- Keepalive ----------

  /** A tick now does not give the connection up. */
  predicate KeepsAlive(con: Conn, now: nat) {
    Expired(con.keepalive, now) ==> con.keepaliveRetry <= KEEPALIVE_RETRY
  }

  predicate IsPing(q: Packet, id: ConnId) {
    q.ctrl == PING && q.connId == id
  }

  predicate IsPong(q: Packet, id: ConnId) {
    q.ctrl == PONG && q.connId == id
  }

  function PongFor(q: Packet): Packet {
    q.(ctrl := PONG, payload := [])
  }

  /** A connection that waits for a PONG has sent a PING. */
  ghost predicate Pinged(con: Conn, sent: set<Packet>) {
    con.keepaliveRetry > 0 ==> exists q :: q in sent && IsPing(q, con.connId)
  }

  ghost predicate CtxPinged(c: Ctx, sent: set<Packet>) {
    forall i :: 0 <= i < |c.conns| && c.conns[i].state.Established? ==> Pinged(c.conns[i], sent)
  }

  lemma StillPinged(con: Conn, after: Conn, sent: set<Packet>, sent': set<Packet>)
    requires Pinged(con, sent) && sent <= sent' && after.connId == con.connId
    requires after.keepaliveRetry == con.keepaliveRetry || after.keepaliveRetry == 0
    ensures Pinged(after, sent')
  {
    if after.keepaliveRetry > 0 {
      var q :| q in sent && IsPing(q, con.connId);
      assert q in sent';
    }
  }

  /** The keepalive of an established connection: counted on by timers, restarted by a PONG or a handshake. */
  ghost predicate KeepaliveKept(con: Conn, after: Conn) {
    after.state.Established? ==>
      after.keepaliveRetry == 0
      || (con.state.Established? && after.connId == con.connId && after.keepaliveRetry == con.keepaliveRetry)
  }

  lemma AddressedKeepsKeepalive(con: Conn, p: Packet, from: Addr, now: nat, sendOk: bool, reliable: seq<bool>)
    requires ConnOk(con, reliable) && IsAddressed(p)
    ensures KeepaliveKept(con, AddressedEffect(con, p, from, now, sendOk, reliable).con)
  {
  }

  lemma ReceiveKeepsKeepalive(c: Ctx, p: Packet, from: Addr, now: nat, sendOk: bool, i: nat)
    requires CtxOk(c) && i < |c.conns|
    ensures var c' := Receive(c, p, from, now, sendOk).ctx;
            |c'.conns| == |c.conns| && KeepaliveKept(c.conns[i], c'.conns[i])
  {
    if p.ctrl != SYN && p.ctrl != SYN_ACK && p.ctrl != PING && IsAddressed(p) {
      if FindById(c.conns, p.connId) == Some(i) {
        AddressedKeepsKeepalive(c.conns[i], p, from, now, sendOk, c.reliable);
      }
    }
  }

  lemma ReceivePinged(c: Ctx, p: Packet, from: Addr, now: nat, sendOk: bool, sent: set<Packet>, sent': set<Packet>)
    requires CtxOk(c) && CtxPinged(c, sent) && sent <= sent'
    ensures CtxPinged(Receive(c, p, from, now, sendOk).ctx, sent')
  {
    var c' := Receive(c, p, from, now, sendOk).ctx;
    forall i | 0 <= i < |c'.conns| && c'.conns[i].state.Established? ensures Pinged(c'.conns[i], sent') {
      ReceiveKeepsSlots(c, p, from, now, sendOk);
      ReceiveKeepsKeepalive(c, p, from, now, sendOk, i);
      if c'.conns[i].keepaliveRetry > 0 {
        StillPinged(c.conns[i], c'.conns[i], sent, sent');
      }
    }
  }

  lemma {:induction false} TimersSendAll(c: Ctx, slot: nat, now: nat, k: nat, d: Datagram)
    requires CtxOk(c) && slot <= k < |c.conns|
    requires d in TimerEffect(c.conns[k], now, c.reliable).sent
    ensures d in TimersFrom(c, slot, now).sent
    decreases |c.conns| - slot
  {
    TimerOutcomeOk(c, slot, now);
    if slot < k {
      TimersSendAll(TimerOutcome(c, slot, now).ctx, slot + 1, now, k, d);
    }
  }

  lemma {:induction false} TransmitSendsHead(con: Conn, ch: nat, now: nat, k: nat)
    requires con.channels.Some? && ch <= k < |con.channels.value|
    requires var queue := con.channels.value[k].sendQueue; queue != [] && Expired(queue[0].timestamp, now)
    ensures Datagram(con.peer, con.channels.value[k].sendQueue[0].packet) in TransmitFrom(con, ch, now).sent
    decreases |con.channels.value| - ch
  {
    if ch < k {
      var t := TransmitHead(con.channels.value[ch], con.peer, now);
      TransmitSendsHead(SetChannel(con, ch, t.chan).(lossCount := con.lossCount + t.losses), ch + 1, now, k);
    }
  }

  lemma {:induction false} TransmitKeepsKeepalive(con: Conn, ch: nat, now: nat)
    requires con.channels.Some? && ch <= |con.channels.value|
    ensures var after := TransmitFrom(con, ch, now).con;
            after.keepalive == con.keepalive && after.keepaliveRetry == con.keepaliveRetry
    decreases |con.channels.value| - ch
  {
    if ch < |con.channels.value| {
      var t := TransmitHead(con.channels.value[ch], con.peer, now);
      TransmitKeepsKeepalive(SetChannel(con, ch, t.chan).(lossCount := con.lossCount + t.losses), ch + 1, now);
    }
  }

  /** What a tick does to the keepalive: nothing, or one more PING. */
  lemma TickPings(con: Conn, now: nat, reliable: seq<bool>)
    requires con.state.Established? && ConnOk(con, reliable) && |reliable| >= 1 && KeepsAlive(con, now)
    ensures var e := TimerEffect(con, now, reliable);
            && e.con.state == con.state && e.con.connId == con.connId && e.con.peer == con.peer
            && (e.con.keepaliveRetry == con.keepaliveRetry
                || (e.con.keepaliveRetry == con.keepaliveRetry + 1
                    && exists d :: d in e.sent && IsPing(d.packet, con.connId)))
  {
    var transmitted := TransmitFrom(con, 0, now);
    TransmitKeepsKeepalive(con, 0, now);
    TransmitFromKeeps(con, 0, now);
    var alive := KeepaliveEffect(transmitted.con, now, reliable);
    assert TimerEffect(con, now, reliable) == Then(transmitted, alive);
    if Expired(con.keepalive, now) {
      var d := Datagram(con.peer, PingPacket(transmitted.con, now));
      assert d in alive.sent && IsPing(d.packet, con.connId);
    }
  }

  lemma TimersPinged(c: Ctx, now: nat, sent: set<Packet>)
    requires CtxOk(c) && CtxPinged(c, sent)
    ensures CtxPinged(TimersFrom(c, 0, now).ctx, sent + Packets(TimersFrom(c, 0, now).sent))
  {
    var out := TimersFrom(c, 0, now);
    TimersFromOk(c, 0, now);
    forall i | 0 <= i < |out.ctx.conns| && out.ctx.conns[i].state.Established?
      ensures Pinged(out.ctx.conns[i], sent + Packets(out.sent))
    {
      TimersFromConn(c, 0, now, i);
      SlotTimersPinged(c, now, sent, i);
    }
  }

  lemma SlotTimersPinged(c: Ctx, now: nat, sent: set<Packet>, i: nat)
    requires CtxOk(c) && CtxPinged(c, sent) && i < |c.conns|
    requires TimerEffect(c.conns[i], now, c.reliable).con.state.Established?
    ensures Pinged(TimerEffect(c.conns[i], now, c.reliable).con, sent + Packets(TimersFrom(c, 0, now).sent))
  {
    var con := c.conns[i];
    var e := TimerEffect(con, now, c.reliable);
    TimerEffectKeeps(con, now, c.reliable);
    GivenUpOrKept(con, now, c.reliable);
    TickPings(con, now, c.reliable);
    if e.con.keepaliveRetry == con.keepaliveRetry {
      StillPinged(con, e.con, sent, sent + Packets(TimersFrom(c, 0, now).sent));
    } else {
      var d :| d in e.sent && IsPing(d.packet, con.connId);
      TimersSendAll(c, 0, now, i, d);
      assert d.packet in Packets(TimersFrom(c, 0, now).sent);
    }
  }

  /** A connection is established after its timers exactly when they did not give it up. */
  lemma GivenUpOrKept(con: Conn, now: nat, reliable: seq<bool>)
    requires ConnOk(con, reliable) && |reliable| >= 1
    ensures TimerEffect(con, now, reliable).con.state.Established? <==> con.state.Established? && KeepsAlive(con, now)
  {
    if con.state.Established? {
      TransmitKeepsKeepalive(con, 0, now);
      TransmitFromKeeps(con, 0, now);
    }
  }

  lemma ActPinged(n: Node, a: Action, now: nat, sent: set<Packet>)
    requires CtxOk(n.ctx) && ActionOk(n, a) && CtxPinged(n.ctx, sent)
    ensures CtxPinged(Act(n, a, now).0.ctx, sent + Packets(Act(n, a, now).1))
  {
    match a
    case Recv(p, from, sendOk) =>
      ReceivePinged(n.ctx, p, from, now, sendOk, sent, sent + Packets(Act(n, a, now).1));
    case Timers => TimersPinged(n.ctx, now, sent);
    case _ => CallPinged(n, a, now, sent, sent + Packets(Act(n, a, now).1));
  }

  lemma CallPinged(n: Node, a: Action, now: nat, sent: set<Packet>, sent': set<Packet>)
    requires CtxOk(n.ctx) && ActionOk(n, a) && !a.Recv? && !a.Timers? && CtxPinged(n.ctx, sent) && sent <= sent'
    ensures CtxPinged(Act(n, a, now).0.ctx, sent')
  {
    var c' := Act(n, a, now).0.ctx;
    forall i | 0 <= i < |c'.conns| && c'.conns[i].state.Established? ensures Pinged(c'.conns[i], sent') {
      ActKeepsSlots(n, a, now);
      CallKeepsKeepalive(n, a, now, i);
      StillPinged(n.ctx.conns[i], c'.conns[i], sent, sent');
    }
  }

  lemma CallKeepsKeepalive(n: Node, a: Action, now: nat, i: nat)
    requires CtxOk(n.ctx) && ActionOk(n, a) && !a.Recv? && !a.Timers? && i < |n.ctx.conns|
    ensures i < |Act(n, a, now).0.ctx.conns|
    ensures var con, after := n.ctx.conns[i], Act(n, a, now).0.ctx.conns[i];
            after.state.Established? ==>
              con.state.Established? && after.connId == con.connId && after.keepaliveRetry == con.keepaliveRetry
  {
  }

  ghost predicate SysPinged(s: Sys) {
    CtxPinged(s.client.ctx, s.toServer) && CtxPinged(s.server.ctx, s.toClient)
  }

  lemma StepPinged(s: Sys, st: Step)
    requires SysPinged(s) && Enabled(s, st)
    ensures SysPinged(Next(s, st))
  {
    match st
    case AtClient(a) => ActPinged(s.client, a, s.now, s.toServer);
    case AtServer(a) => ActPinged(s.server, a, s.now, s.toClient);
    case Wait(_) =>
  }

  /** In every run, an end that waits for a PONG has sent a PING of that connection. */
  lemma {:induction false} RunPinged(s: Sys, steps: seq<Step>)
    requires SysPinged(s) && Possible(s, steps)
    ensures SysPinged(Final(s, steps))
    decreases |steps|
  {
    if steps != [] {
      StepPinged(s, steps[0]);
      RunPinged(Next(s, steps[0]), steps[1..]);
    }
  }

  // ---------- A due head is sent ----------

  /** A due head is sent. */
  lemma TickSendsHead(con: Conn, now: nat, k: nat, reliable: seq<bool>)
    requires con.state.Established? && ConnOk(con, reliable) && k < |reliable|
    requires var queue := con.channels.value[k].sendQueue; queue != [] && Expired(queue[0].timestamp, now)
    ensures Datagram(con.peer, con.channels.value[k].sendQueue[0].packet) in TimerEffect(con, now, reliable).sent
  {
    TransmitSendsHead(con, 0, now, k);
    assert TimerEffect(con, now, reliable)
        == Then(TransmitFrom(con, 0, now), KeepaliveEffect(TransmitFrom(con, 0, now).con, now, reliable));
  }

  /** The same packets, and only the head's timer touched. */
  ghost predicate SameButHead(before: seq<Entry>, after: seq<Entry>) {
    && |after| == |before|
    && (before != [] ==> after[0].packet == before[0].packet && after[1..] == before[1..])
  }

  // ---------- Packets ----------

  /** The answer to a packet that is due or has been accepted. */
  lemma DataIsAcked(con: Conn, p: Packet, reliable: seq<bool>)
    requires con.state.Established? && ConnOk(con, reliable) && p.channel < |reliable| && reliable[p.channel]
    requires p.seqNo <= con.channels.value[p.channel].ackNo
    ensures var e := DataEffect(con, p, con.peer, reliable);
            var chan := con.channels.value[p.channel];
            && e.sent == [DataAck(con, p.channel, chan, p.seqNo)]
            && e.con.state == con.state && e.con.peer == con.peer && e.con.connId == con.connId
            && e.con.channels.Some? && |e.con.channels.value| == |reliable|
            && (p.seqNo < chan.ackNo ==> e.con == con)
            && (p.seqNo == chan.ackNo && |chan.recvQueue| < QUEUE_CAPACITY ==>
                  e.con.channels.value[p.channel] == chan.(recvQueue := chan.recvQueue + [p], ackNo := Next32(chan.ackNo)))
  {
    assert ChanOk(con.channels.value[p.channel], reliable[p.channel]);
  }

  lemma AckPopsHead(con: Conn, p: Packet, reliable: seq<bool>)
    requires con.state.Established? && ConnOk(con, reliable) && p.channel < |reliable|
    requires var queue := con.channels.value[p.channel].sendQueue; queue != [] && queue[0].packet.seqNo == p.ackNo
    ensures var after := DataAckEffect(con, p, reliable).con;
            && after.state == con.state && after.channels.Some? && |after.channels.value| == |reliable|
            && after.channels.value[p.channel].sendQueue == con.channels.value[p.channel].sendQueue[1..]
            && after == con.(channels := after.channels)
  {
  }

  // ---------- One end ----------

  /** The end's connection carries channel `k` and is the one its identifier finds. */
  ghost predicate Carrying(n: Node, k: nat) {
    && NodeInv(n) && n.established == 1
    && n.ctx.conns[n.slot].state.Established? && k < |n.books|
    && FindById(n.ctx.conns, n.id) == Some(n.slot)
  }

  ghost function ConnOf(n: Node): Conn
    requires NodeInv(n)
  {
    n.ctx.conns[n.slot]
  }

  ghost function ChanOf(n: Node, k: nat): Chan
    requires Carrying(n, k)
  {
    n.ctx.conns[n.slot].channels.value[k]
  }

  /** The end as before but for its context, whose established slot still carries channel `k`. */
  ghost predicate Goes(n: Node, n': Node, k: nat)
    requires Carrying(n, k)
  {
    && Carrying(n', k) && n'.id == n.id && n'.seq0 == n.seq0 && n'.ack0 == n.ack0 && n'.ctx.reliable == n.ctx.reliable
    && ConnOf(n').peer == ConnOf(n).peer
  }

  /** The same identifiers in the same slots are found in the same slots. */
  lemma FindByIdSame(conns: seq<Conn>, conns': seq<Conn>, id: ConnId)
    requires |conns| == |conns'| && forall i :: 0 <= i < |conns| ==> conns'[i].connId == conns[i].connId
    ensures FindById(conns', id) == FindById(conns, id)
  {
  }

  lemma TimersKeepNames(c: Ctx, now: nat, id: ConnId)
    requires CtxOk(c)
    ensures FindById(TimersFrom(c, 0, now).ctx.conns, id) == FindById(c.conns, id)
  {
    var c' := TimersFrom(c, 0, now).ctx;
    TimersFromOk(c, 0, now);
    forall i | 0 <= i < |c.conns| ensures c'.conns[i].connId == c.conns[i].connId {
      TimersFromConn(c, 0, now, i);
      TimerEffectKeeps(c.conns[i], now, c.reliable);
    }
    FindByIdSame(c.conns, c'.conns, id);
  }

  /** What the timers do to the end's own slot. */
  lemma OwnSlotTicks(n: Node, now: nat, k: nat)
    requires Carrying(n, k) && KeepsAlive(ConnOf(n), now)
    ensures var con, c' := ConnOf(n), TimersFrom(n.ctx, 0, now).ctx;
            && n.slot < |c'.conns| && FindById(c'.conns, n.id) == Some(n.slot)
            && var after := c'.conns[n.slot];
               && after.state.Established? && after.peer == con.peer
               && after.keepaliveRetry <= con.keepaliveRetry + 1
               && after.channels.Some? && |after.channels.value| == |n.ctx.reliable|
               && after.channels.value[k] == TransmitHead(con.channels.value[k], con.peer, now).chan
  {
    TickPings(ConnOf(n), now, n.ctx.reliable);
    TimersFromConn(n.ctx, 0, now, n.slot);
    TimerMoves(ConnOf(n), now, n.ctx.reliable, k);
    TimersKeepNames(n.ctx, now, n.id);
  }

  lemma NodeTicks(n: Node, now: nat, k: nat)
    requires Carrying(n, k) && KeepsAlive(ConnOf(n), now)
    ensures var n' := Act(n, Timers, now).0;
            && Goes(n, n', k)
            && ConnOf(n').keepaliveRetry <= ConnOf(n).keepaliveRetry + 1
            && ChanOf(n', k) == TransmitHead(ChanOf(n, k), ConnOf(n).peer, now).chan
  {
    OwnSlotTicks(n, now, k);
    ActFrame(n, Timers, now);
    ActKeepsInv(n, Timers, now);
  }

  lemma NodeSendsHead(n: Node, now: nat, k: nat)
    requires Carrying(n, k)
    requires var queue := ChanOf(n, k).sendQueue; queue != [] && Expired(queue[0].timestamp, now)
    ensures ChanOf(n, k).sendQueue[0].packet in Packets(Act(n, Timers, now).1)
  {
    var d := Datagram(ConnOf(n).peer, ChanOf(n, k).sendQueue[0].packet);
    TickSendsHead(ConnOf(n), now, k, n.ctx.reliable);
    TimersSendAll(n.ctx, 0, now, n.slot, d);
    assert d in Act(n, Timers, now).1;
  }

  /** A PING is answered to where it came from, and changes nothing. */
  lemma NodeHearsPing(n: Node, q: Packet, from: Addr, now: nat)
    requires CtxOk(n.ctx) && q.ctrl == PING
    ensures Act(n, Recv(q, from, true), now) == (n, [Datagram(from, PongFor(q))])
  {
  }

  lemma PongHandled(n: Node, q: Packet, from: Addr, now: nat)
    requires NodeInv(n) && n.established == 1 && FindById(n.ctx.conns, n.id) == Some(n.slot)
    requires IsPong(q, n.id) && n.ctx.conns[n.slot].state.Established?
    ensures var (n', sent) := ActRecv(n, q, from, true, now);
            && sent == [] && n'.ctx.conns == n.ctx.conns[n.slot := PongEffect(n.ctx.conns[n.slot], now).con]
            && n'.established == 1 && n'.slot == n.slot && n'.id == n.id && n'.seq0 == n.seq0 && n'.ack0 == n.ack0
            && n'.ctx.reliable == n.ctx.reliable
  {
  }

  /** A PONG restarts the keepalive, and does nothing else. */
  lemma NodeHearsPong(n: Node, q: Packet, from: Addr, now: nat, k: nat)
    requires Carrying(n, k) && IsPong(q, n.id)
    ensures var (n', sent) := Act(n, Recv(q, from, true), now);
            && sent == [] && Goes(n, n', k) && ChanOf(n', k) == ChanOf(n, k) && ConnOf(n').keepaliveRetry == 0
  {
    PongHandled(n, q, from, now);
    var n' := Act(n, Recv(q, from, true), now).0;
    FindByIdSame(n.ctx.conns, n'.ctx.conns, n.id);
    ActKeepsInv(n, Recv(q, from, true), now);
  }

  /** Taking a packet of the established connection changes only its slot. */
  lemma ReceiverHandlesData(n: Node, q: Packet, now: nat)
    requires NodeInv(n) && n.established == 1 && FindById(n.ctx.conns, n.id) == Some(n.slot)
    requires q.ctrl == DATA && q.connId == n.id && n.ctx.conns[n.slot].state.Established?
    ensures var con := n.ctx.conns[n.slot];
            var (n', sent) := ActRecv(n, q, con.peer, true, now);
            var e := DataEffect(con, q, con.peer, n.ctx.reliable);
            && sent == e.sent && n'.ctx.conns == n.ctx.conns[n.slot := e.con] && n'.established == 1
            && n'.slot == n.slot && n'.id == n.id && n'.seq0 == n.seq0 && n'.ack0 == n.ack0 && n'.ctx.reliable == n.ctx.reliable
  {
  }

  /** The packet was accepted, if it was due and there was room, or had been. */
  ghost predicate Taken(before: Chan, after: Chan, q: Packet) {
    && (|before.recvQueue| < QUEUE_CAPACITY && q.seqNo == before.ackNo ==>
          after == before.(recvQueue := before.recvQueue + [q], ackNo := Next32(before.ackNo)))
    && (q.seqNo < before.ackNo ==> after == before)
  }

  ghost function Delivery(n: Node, q: Packet): Action
    requires NodeInv(n)
  {
    Recv(q, ConnOf(n).peer, true)
  }

  ghost function Answer(n: Node, k: nat, q: Packet): Packet
    requires Carrying(n, k) && k < 256
  {
    Packet(DATA_ACK, k, n.id, ChanOf(n, k).seqNo, q.seqNo, [])
  }

  lemma ReceiverTakes(n: Node, q: Packet, now: nat, k: nat)
    requires Carrying(n, k) && n.ctx.reliable[k] && k < 256
    requires q.ctrl == DATA && q.channel == k && q.connId == n.id && q.seqNo <= ChanOf(n, k).ackNo
    ensures var (n', sent) := Act(n, Delivery(n, q), now);
            && Goes(n, n', k) && ConnOf(n').keepaliveRetry == ConnOf(n).keepaliveRetry
            && Taken(ChanOf(n, k), ChanOf(n', k), q)
            && Answer(n, k, q) in Packets(sent)
  {
    var con := ConnOf(n);
    ReceiverHandlesData(n, q, now);
    DataIsAcked(con, q, n.ctx.reliable);
    var (n', sent) := Act(n, Delivery(n, q), now);
    FindByIdSame(n.ctx.conns, n'.ctx.conns, n.id);
    ActKeepsInv(n, Delivery(n, q), now);
    assert EstablishedMatches(con, n);
    assert DataAck(con, k, con.channels.value[k], q.seqNo) in sent;
  }

  lemma OneArrival(c: Ctx, q: Packet, from: Addr, now: nat)
    requires CtxOk(c)
    ensures CtxOk(Receive(c, q, from, now, true).ctx)
    ensures Tick(c, [Valid(q, from, now, true)], now).ctx == TimersFrom(Receive(c, q, from, now, true).ctx, 0, now).ctx
  {
    var inbox := [Valid(q, from, now, true)];
    assert inbox[1..] == [] && inbox[..1] == inbox;
    assert Consumed(inbox, RECV_LIMIT_PER_TICK) == 1;
    ReceiveOk(c, q, from, now, true);
    var after := Receive(c, q, from, now, true).ctx;
    assert ReceiveAll(after, []).ctx == after;
    assert ReceiveAll(c, inbox).ctx == after;
  }

  lemma ImpatientCloses(con: Conn, now: nat, reliable: seq<bool>)
    requires con.state.Established? && ConnOk(con, reliable) && !KeepsAlive(con, now)
    ensures TimerEffect(con, now, reliable).con.state.Closed?
  {
    TransmitKeepsKeepalive(con, 0, now);
  }

  /** An end out of patience is not saved by data: a tick that takes a packet and no PONG closes it. */
  lemma ReceiverMustHope(n: Node, q: Packet, now: nat, k: nat)
    requires Carrying(n, k) && !KeepsAlive(ConnOf(n), now)
    requires q.ctrl == DATA && q.connId == n.id
    ensures var tick := Tick(n.ctx, [Valid(q, ConnOf(n).peer, now, true)], now);
            n.slot < |tick.ctx.conns| && tick.ctx.conns[n.slot].state.Closed?
  {
    OneArrival(n.ctx, q, ConnOf(n).peer, now);
    ReceiverHandlesData(n, q, now);
    var after := Receive(n.ctx, q, ConnOf(n).peer, now, true).ctx;
    TimersFromConn(after, 0, now, n.slot);
    ImpatientCloses(after.conns[n.slot], now, n.ctx.reliable);
  }

  lemma SenderHandlesAck(n: Node, q: Packet, from: Addr, now: nat)
    requires NodeInv(n) && n.established == 1 && FindById(n.ctx.conns, n.id) == Some(n.slot)
    requires q.ctrl == DATA_ACK && q.connId == n.id && n.ctx.conns[n.slot].state.Established?
    ensures var con := n.ctx.conns[n.slot];
            var n' := ActRecv(n, q, from, true, now).0;
            && n'.ctx.conns == n.ctx.conns[n.slot := DataAckEffect(con, q, n.ctx.reliable).con] && n'.established == 1
            && n'.slot == n.slot && n'.id == n.id && n'.seq0 == n.seq0 && n'.ack0 == n.ack0 && n'.ctx.reliable == n.ctx.reliable
  {
  }

  lemma SenderDequeues(n: Node, q: Packet, from: Addr, now: nat, k: nat)
    requires Carrying(n, k) && q.ctrl == DATA_ACK && q.channel == k && q.connId == n.id
    requires var queue := ChanOf(n, k).sendQueue; queue != [] && queue[0].packet.seqNo == q.ackNo
    ensures var n' := Act(n, Recv(q, from, true), now).0;
            && Goes(n, n', k) && ConnOf(n').keepaliveRetry == ConnOf(n).keepaliveRetry
            && ChanOf(n', k).sendQueue == ChanOf(n, k).sendQueue[1..]
  {
    SenderHandlesAck(n, q, from, now);
    AckPopsHead(ConnOf(n), q, n.ctx.reliable);
    var n' := Act(n, Recv(q, from, true), now).0;
    FindByIdSame(n.ctx.conns, n'.ctx.conns, n.id);
    ActKeepsInv(n, Recv(q, from, true), now);
  }
}
