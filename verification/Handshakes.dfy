/**
 Opening, refusing and closing a connection, between any two contexts: what each tick sends, and what the other
 end's tick makes of it.
 */
module Handshakes {
  import opened Wrappers
  import opened Protocol
  import opened Endpoint
  import opened Node
  import opened Slots
  import opened Lifecycle
  import opened Notices
  import opened Accounting

  // ---------- A tick that finds one packet ----------

  function TickTaking(c: Ctx, p: Packet, from: Addr, now: nat): Outcome
    requires CtxOk(c)
  {
    Tick(c, [Valid(p, from, now, true)], now)
  }

  lemma OneIsHandled(c: Ctx, p: Packet, from: Addr, now: nat)
    requires CtxOk(c)
    ensures var r := Receive(c, p, from, now, true);
            CtxOk(r.ctx) && TickTaking(c, p, from, now) == Followed(r, TimersFrom(r.ctx, 0, now))
  {
    var inbox := [Valid(p, from, now, true)];
    var r := Receive(c, p, from, now, true);
    ReceiveOk(c, p, from, now, true);
    assert inbox[1..] == [];
    assert Consumed([], RECV_LIMIT_PER_TICK - 1) == 0;
    assert Consumed(inbox, RECV_LIMIT_PER_TICK) == 1 && inbox[..1] == inbox;
    assert ReceiveAll(r.ctx, []) == Outcome(r.ctx, []);
    assert r.sent + [] == r.sent;
  }

  /** The datagrams of a slot's timers are among those of all timers. */
  lemma {:induction false} SlotIsHeard(c: Ctx, slot: nat, now: nat, i: nat, d: Datagram)
    requires CtxOk(c) && slot <= i < |c.conns| && d in TimerEffect(c.conns[i], now, c.reliable).sent
    ensures d in TimersFrom(c, slot, now).sent
    decreases i - slot
  {
    TimerOutcomeOk(c, slot, now);
    if slot < i {
      SlotIsHeard(TimerOutcome(c, slot, now).ctx, slot + 1, now, i, d);
    }
  }

  /** The packet is handled, and then slot `i` runs its timers. */
  lemma TickTakes(c: Ctx, p: Packet, from: Addr, now: nat, i: nat)
    requires CtxOk(c) && i < |c.conns|
    ensures var r, tick := Receive(c, p, from, now, true), TickTaking(c, p, from, now);
            && CtxOk(r.ctx) && CtxOk(tick.ctx)
            && |r.ctx.conns| == |tick.ctx.conns| == |c.conns|
            && tick.ctx.conns[i] == TimerEffect(r.ctx.conns[i], now, r.ctx.reliable).con
            && r.ctx.events <= tick.ctx.events
            && (forall d :: d in r.sent ==> d in tick.sent)
            && (forall d :: d in TimerEffect(r.ctx.conns[i], now, r.ctx.reliable).sent ==> d in tick.sent)
  {
    var r := Receive(c, p, from, now, true);
    OneIsHandled(c, p, from, now);
    RecvDiagram(c, p, from, true, now, i);
    RecvTold(c, p, from, true, now);
    TimersFromOk(r.ctx, 0, now);
    TimersFromConn(r.ctx, 0, now, i);
    TimersOnlyAppend(r.ctx, 0, now);
    forall d | d in TimerEffect(r.ctx.conns[i], now, r.ctx.reliable).sent ensures d in TickTaking(c, p, from, now).sent {
      SlotIsHeard(r.ctx, 0, now, i, d);
    }
  }

  /** A tick that finds nothing. */
  lemma TickAlone(c: Ctx, now: nat, i: nat)
    requires CtxOk(c) && i < |c.conns|
    ensures var tick := Tick(c, [], now);
            && CtxOk(tick.ctx) && |tick.ctx.conns| == |c.conns| && tick.ctx.reliable == c.reliable
            && tick.ctx.conns[i] == TimerEffect(c.conns[i], now, c.reliable).con
            && (forall d :: d in TimerEffect(c.conns[i], now, c.reliable).sent ==> d in tick.sent)
  {
    assert ReceiveAll(c, []) == Outcome(c, []);
    TimersFromOk(c, 0, now);
    TimersFromConn(c, 0, now, i);
    forall d | d in TimerEffect(c.conns[i], now, c.reliable).sent ensures d in Tick(c, [], now).sent {
      SlotIsHeard(c, 0, now, i, d);
    }
  }

  /** The context with one connection changed and one thing reported. */
  function Changed(c: Ctx, i: nat, con: Conn, note: Note, blocks: int): Ctx
    requires i < |c.conns|
  {
    c.(conns := c.conns[i := con],
       events := Kept(c.events + [Event(i, note)], c.eventCapacity),
       blocks := c.blocks + blocks)
  }

  lemma InstallIsChanged(c: Ctx, i: nat, e: Effect, note: Note)
    requires i < |c.conns| && |c.events| <= c.eventCapacity && e.notes == [note]
    ensures Install(c, i, e).ctx == Changed(c, i, e.con, note, e.blocks)
  {
    PushNotesKept(c.events, c.eventCapacity, i, [note]);
    assert Events(i, [note]) == [Event(i, note)];
  }

  // ---------- Closing ----------

  function Fin(id: ConnId): Packet {
    Packet(FIN, 0, id, 0, 0, [])
  }

  function FinAck(id: ConnId): Packet {
    Packet(FIN_ACK, 0, id, 0, 0, [])
  }

  /** Slot `i` closed by the other end: its channels are freed and the application is told so. */
  function ClosedByPeer(c: Ctx, i: nat): Ctx
    requires i < |c.conns|
  {
    Changed(c, i, c.conns[i].(state := Closed, channels := None), Disconnected(ByPeer), -FreedBlocks(c.conns[i], c.reliable))
  }

  /** Slot `i` is what the identifier finds. */
  predicate IsAt(c: Ctx, i: nat, id: ConnId) {
    CtxOk(c) && i < |c.conns| && FindById(c.conns, id) == Some(i)
  }

  /** A FIN closes whatever it finds open, and is answered to the peer, open or not. */
  lemma FinIsAnswered(c: Ctx, i: nat, id: ConnId, from: Addr, now: nat)
    requires IsAt(c, i, id)
    ensures Receive(c, Fin(id), from, now, true)
         == Outcome(if c.conns[i].state.Closed? then c else ClosedByPeer(c, i), [Datagram(c.conns[i].peer, FinAck(id))])
  {
    var e := FinEffect(c.conns[i], true, c.reliable);
    if c.conns[i].state.Closed? {
      assert c.conns[i := c.conns[i]] == c.conns;
    } else {
      InstallIsChanged(c, i, e, Disconnected(ByPeer));
    }
  }

  /** The answer closes the end that asked; a closed end takes no notice of it. */
  lemma FinAckCloses(c: Ctx, i: nat, id: ConnId, from: Addr, now: nat, sendOk: bool)
    requires IsAt(c, i, id)
    ensures Receive(c, FinAck(id), from, now, sendOk)
         == Outcome(if c.conns[i].state.Closed? then c else ClosedByPeer(c, i), [])
  {
    var e := FinAckEffect(c.conns[i], c.reliable);
    if c.conns[i].state.Closed? {
      assert c.conns[i := c.conns[i]] == c.conns;
    } else {
      InstallIsChanged(c, i, e, Disconnected(ByPeer));
    }
  }

  /** A connection that one end has and the other end has: the same identifier, each other's addresses. */
  predicate Joined(c: Ctx, i: nat, c2: Ctx, j: nat, id: ConnId, a: Addr, b: Addr) {
    && IsAt(c, i, id) && c.conns[i].state.Established? && c.conns[i].peer == b
    && IsAt(c2, j, id) && c2.conns[j].state.Established? && c2.conns[j].peer == a
  }

  /** The tick after a close sends the FIN, and the connection waits for its answer. */
  lemma CloseSendsFin(c: Ctx, i: nat, id: ConnId, asked: nat, now: nat)
    requires IsAt(c, i, id) && c.conns[i].state.Established? && 0 < asked <= now
    ensures var closing := Close(c, i, asked).0;
            && CtxOk(closing)
            && var tick := Tick(closing, [], now);
               && Datagram(c.conns[i].peer, Fin(id)) in tick.sent
               && CtxOk(tick.ctx) && |tick.ctx.conns| == |c.conns| && tick.ctx.reliable == c.reliable
               && tick.ctx.conns[i].state.FinSent? && tick.ctx.conns[i].connId == id
               && tick.ctx.conns[i].channels == c.conns[i].channels
  {
    var closing := Close(c, i, asked).0;
    assert ConnOk(c.conns[i], c.reliable);
    TickAlone(closing, now, i);
  }

  /** Closed, without channels, and with the report in the event queue if there was room. */
  predicate IsClosed(c: Ctx, c': Ctx, i: nat) {
    && i < |c'.conns| && c'.conns[i].state.Closed? && c'.conns[i].channels.None?
    && Kept(c.events + [Event(i, Disconnected(ByPeer))], c.eventCapacity) <= c'.events
  }

  /** The other end's tick that finds the FIN. */
  lemma TickTakesFin(c: Ctx, i: nat, id: ConnId, from: Addr, now: nat)
    requires IsAt(c, i, id) && !c.conns[i].state.Closed?
    ensures var tick := TickTaking(c, Fin(id), from, now);
            IsClosed(c, tick.ctx, i) && Datagram(c.conns[i].peer, FinAck(id)) in tick.sent
  {
    FinIsAnswered(c, i, id, from, now);
    TickTakes(c, Fin(id), from, now, i);
  }

  lemma TickTakesFinAck(c: Ctx, i: nat, id: ConnId, from: Addr, now: nat)
    requires IsAt(c, i, id) && !c.conns[i].state.Closed?
    ensures IsClosed(c, TickTaking(c, FinAck(id), from, now).ctx, i)
  {
    FinAckCloses(c, i, id, from, now, true);
    TickTakes(c, FinAck(id), from, now, i);
  }

  /** The identifiers decide what an identifier finds. */
  lemma SameIdsFind(a: seq<Conn>, b: seq<Conn>, id: ConnId)
    requires |a| == |b| && forall j :: 0 <= j < |a| ==> a[j].connId == b[j].connId
    ensures FindById(a, id) == FindById(b, id)
  {
  }

  lemma TimerKeepsId(con: Conn, now: nat, reliable: seq<bool>)
    requires ConnOk(con, reliable)
    ensures TimerEffect(con, now, reliable).con.connId == con.connId
  {
    if con.state.Established? {
      TransmitKeepsTimer(con, 0, now);
    }
  }

  /** A tick that finds nothing leaves every identifier where it is. */
  lemma TickKeepsIds(c: Ctx, now: nat, i: nat, id: ConnId)
    requires IsAt(c, i, id)
    ensures IsAt(Tick(c, [], now).ctx, i, id)
  {
    var c' := Tick(c, [], now).ctx;
    TickAlone(c, now, i);
    forall j | 0 <= j < |c.conns| ensures c'.conns[j].connId == c.conns[j].connId {
      TickAlone(c, now, j);
      TimerKeepsId(c.conns[j], now, c.reliable);
    }
    SameIdsFind(c.conns, c'.conns, id);
  }

  lemma CloseKeepsIds(c: Ctx, i: nat, id: ConnId, now: nat)
    requires IsAt(c, i, id)
    ensures IsAt(Close(c, i, now).0, i, id)
  {
    SameIdsFind(c.conns, Close(c, i, now).0.conns, id);
  }

  /**
   The whole closing handshake, between any two ends of a connection. After `Close` the closer's next tick sends
   a FIN; the tick of the other end that finds it closes that end without channels, reports it, and answers; the
   tick of the closer that finds the answer closes the closer, gives its channels back and reports the same.
   Copies of the answer change nothing there, and a copy of the FIN changes nothing at the other end, which
   answers it again.
   */
  lemma ClosingHandshake(c: Ctx, i: nat, d: Ctx, j: nat, id: ConnId, a: Addr, b: Addr,
                         asked: nat, first: nat, second: nat, third: nat, fourth: nat)
    requires Joined(c, i, d, j, id, a, b) && 0 < asked <= first
    ensures CtxOk(Close(c, i, asked).0) && CtxOk(Tick(Close(c, i, asked).0, [], first).ctx)
    ensures var sent := Tick(Close(c, i, asked).0, [], first);
            var taken := TickTaking(d, Fin(id), a, second);
            var done := TickTaking(sent.ctx, FinAck(id), b, third);
            && Datagram(b, Fin(id)) in sent.sent
            && IsClosed(d, taken.ctx, j) && Datagram(a, FinAck(id)) in taken.sent
            && IsAt(sent.ctx, i, id) && FreedBlocks(sent.ctx.conns[i], sent.ctx.reliable) == ChannelBlocks(c.reliable)
            && IsClosed(sent.ctx, done.ctx, i)
    ensures var sent := Tick(Close(c, i, asked).0, [], first);
            var closed, other := ClosedByPeer(sent.ctx, i), ClosedByPeer(d, j);
            && Receive(sent.ctx, FinAck(id), b, third, true) == Outcome(closed, [])
            && Receive(d, Fin(id), a, second, true) == Outcome(other, [Datagram(a, FinAck(id))])
            && CtxOk(closed) && Receive(closed, FinAck(id), b, fourth, true) == Outcome(closed, [])
            && CtxOk(other) && Receive(other, Fin(id), a, fourth, true) == Outcome(other, [Datagram(a, FinAck(id))])
  {
    var sent := Tick(Close(c, i, asked).0, [], first);
    CloseSendsFin(c, i, id, asked, first);
    CloseKeepsIds(c, i, id, asked);
    TickKeepsIds(Close(c, i, asked).0, first, i, id);
    assert ConnOk(c.conns[i], c.reliable);
    TickTakesFin(d, j, id, a, second);
    TickTakesFinAck(sent.ctx, i, id, b, third);
    FinIsAnswered(d, j, id, a, second);
    FinAckCloses(sent.ctx, i, id, b, third, true);
    StaysAt(sent.ctx, i, id);
    StaysAt(d, j, id);
    FinAckCloses(ClosedByPeer(sent.ctx, i), i, id, b, fourth, true);
    FinIsAnswered(ClosedByPeer(d, j), j, id, a, fourth);
  }

  /** A closed slot keeps its identifier. */
  lemma StaysAt(c: Ctx, i: nat, id: ConnId)
    requires IsAt(c, i, id)
    ensures IsAt(ClosedByPeer(c, i), i, id)
  {
    SameIdsFind(c.conns, ClosedByPeer(c, i).conns, id);
  }

  // ---------- Refusing ----------

  function Syn(iss: U32): Packet {
    Packet(SYN, 0, UNASSIGNED, iss, 0, [])
  }

  const REFUSAL := Packet(RST, 0, UNASSIGNED, 0, 0, [])

  /** No slot of the context is for this address, and none is free. */
  predicate IsFull(c: Ctx, from: Addr) {
    forall j :: 0 <= j < |c.conns| ==> c.conns[j].peer != from && !c.conns[j].state.Closed?
  }

  /** A full server answers a SYN with one RST and changes nothing. */
  lemma FullServerRefuses(c: Ctx, p: Packet, from: Addr, now: nat, sendOk: bool)
    requires CtxOk(c) && IsFull(c, from) && IsSyn(p)
    ensures Receive(c, p, from, now, sendOk) == Outcome(c, [Datagram(from, REFUSAL)])
  {
  }

  /** A client whose connect is refused is closed at once, and told of a reset. */
  lemma RefusedClientCloses(c: Ctx, from: Addr, now: nat, sendOk: bool)
    requires CtxOk(c) && c.conns[0].state.SynSent? && c.conns[0].connId == UNASSIGNED
    ensures Receive(c, REFUSAL, from, now, sendOk)
         == Outcome(Changed(c, 0, c.conns[0].(state := Closed), Disconnected(Reset), 0), [])
  {
    assert FindById(c.conns, UNASSIGNED) == Some(0);
    InstallIsChanged(c, 0, RstEffect(c.conns[0], c.reliable), Disconnected(Reset));
  }

  /** The tick after a connect sends the SYN to the configured address. */
  lemma ConnectSendsSyn(c: Ctx, asked: nat, now: nat)
    requires CtxOk(c) && !c.conns[0].state.Established? && 0 < asked <= now
    ensures var calling := Connect(c, asked, true).0;
            && CtxOk(calling)
            && var tick := Tick(calling, [], now);
               && Datagram(c.server, Syn(c.iss)) in tick.sent && CtxOk(tick.ctx)
               && tick.ctx.conns[0] == calling.conns[0].(time := now + RETRY_TIMEOUT, retry := 1)
               && tick.ctx.reliable == c.reliable
  {
    var calling := Connect(c, asked, true).0;
    assert ConnOk(c.conns[0], c.reliable);
    TickAlone(calling, now, 0);
  }

  /**
   A connect to a full server, from the call to the report: the client's tick sends a SYN, the server's tick that
   finds it answers RST and changes no connection but by its own timers, and the client's tick that finds the
   answer closes the client and reports a reset.
   */
  lemma ConnectRefused(c: Ctx, d: Ctx, a: Addr, asked: nat, first: nat, second: nat, third: nat)
    requires CtxOk(c) && !c.conns[0].state.Established? && 0 < asked <= first
    requires CtxOk(d) && IsFull(d, a)
    ensures CtxOk(Connect(c, asked, true).0) && CtxOk(Tick(Connect(c, asked, true).0, [], first).ctx)
    ensures var sent := Tick(Connect(c, asked, true).0, [], first);
            var answered := TickTaking(d, Syn(c.iss), a, second);
            var done := TickTaking(sent.ctx, REFUSAL, c.server, third).ctx;
            && Datagram(c.server, Syn(c.iss)) in sent.sent
            && Datagram(a, REFUSAL) in answered.sent && answered.ctx == TimersFrom(d, 0, second).ctx
            && |done.conns| == |c.conns| && done.conns[0].state.Closed?
            && Kept(sent.ctx.events + [Event(0, Disconnected(Reset))], c.eventCapacity) <= done.events
  {
    var sent := Tick(Connect(c, asked, true).0, [], first);
    ConnectSendsSyn(c, asked, first);
    TickKeepsCapacity(Connect(c, asked, true).0, first);
    FullServerRefuses(d, Syn(c.iss), a, second, true);
    OneIsHandled(d, Syn(c.iss), a, second);
    RefusedClientCloses(sent.ctx, c.server, third, true);
    TickTakes(sent.ctx, REFUSAL, c.server, third, 0);
  }

  lemma TickKeepsCapacity(c: Ctx, now: nat)
    requires CtxOk(c)
    ensures var tick := Tick(c, [], now); tick.ctx.eventCapacity == c.eventCapacity && |tick.ctx.conns| == |c.conns|
  {
    assert ReceiveAll(c, []) == Outcome(c, []);
    TimersKeepSlots(c, 0, now);
  }

  // ---------- Opening ----------

  function SynAck(id: ConnId, iss: U32, ack: U32): Packet {
    Packet(SYN_ACK, 0, id, iss, ack, [])
  }

  function Ack(id: ConnId, number: U32, ack: U32): Packet {
    Packet(ACK, 0, id, number, ack, [])
  }

  /** The identifier a server gives next, to the slot it gives next; no other slot has it. */
  predicate NextIs(d: Ctx, a: Addr, j: nat, id: ConnId) {
    && CtxOk(d) && j < |d.conns| && FindByAddr(d.conns, a) == None && FindClosed(d.conns) == Some(j)
    && id == GenerateClientId(d.clientId, d.clientGen).0
    && forall k :: 0 <= k < |d.conns| && k != j ==> d.conns[k].connId != id
  }

  /** A slot that has answered a SYN once, with nothing left of an earlier connection. */
  predicate Invited(con: Conn, id: ConnId, a: Addr, iss: U32, ack: U32, now: nat) {
    && con.state.SynRcvd? && con.connId == id && con.peer == a && con.seqNo == iss && con.ackNo == ack
    && con.retry == 1 && con.time == now + RETRY_TIMEOUT && con.channels.None? && con.lossCount == 0
  }

  lemma SynTakesSlot(d: Ctx, a: Addr, j: nat, id: ConnId, iss: U32, now: nat)
    requires NextIs(d, a, j, id)
    ensures var out := Receive(d, Syn(iss), a, now, true);
            && CtxOk(out.ctx) && IsAt(out.ctx, j, id) && out.ctx.reliable == d.reliable
            && var con := out.ctx.conns[j];
               && con.state.SynRcvd? && con.connId == id && con.peer == a && con.seqNo == d.iss && con.ackNo == iss
               && con.retry == 0 && con.time == now && con.channels.None? && con.lossCount == 0
  {
    ReceiveOk(d, Syn(iss), a, now, true);
    var conns := Receive(d, Syn(iss), a, now, true).ctx.conns;
    assert forall k :: 0 <= k < |conns| && k != j ==> conns[k] == d.conns[k];
    assert conns[j].connId == id;
    assert FindById(conns, id) == Some(j);
  }

  /** A tick leaves every identifier where its receptions put it. */
  lemma TickTakingKeepsIds(c: Ctx, p: Packet, from: Addr, now: nat, i: nat, id: ConnId)
    requires CtxOk(c) && IsAt(Receive(c, p, from, now, true).ctx, i, id)
    ensures IsAt(TickTaking(c, p, from, now).ctx, i, id)
  {
    var r, c' := Receive(c, p, from, now, true).ctx, TickTaking(c, p, from, now).ctx;
    OneIsHandled(c, p, from, now);
    TimersFromOk(r, 0, now);
    forall k | 0 <= k < |r.conns| ensures c'.conns[k].connId == r.conns[k].connId {
      TimersFromConn(r, 0, now, k);
      TimerKeepsId(r.conns[k], now, r.reliable);
    }
    SameIdsFind(r.conns, c'.conns, id);
  }

  /** The server's tick that finds the SYN gives it a slot and an identifier, and answers. */
  lemma TickTakesSyn(d: Ctx, a: Addr, j: nat, id: ConnId, iss: U32, now: nat)
    requires NextIs(d, a, j, id) && now > 0
    ensures var tick := TickTaking(d, Syn(iss), a, now);
            && IsAt(tick.ctx, j, id) && tick.ctx.reliable == d.reliable
            && Invited(tick.ctx.conns[j], id, a, d.iss, iss, now)
            && Datagram(a, SynAck(id, d.iss, iss)) in tick.sent
  {
    var r := Receive(d, Syn(iss), a, now, true).ctx;
    SynTakesSlot(d, a, j, id, iss, now);
    TickTakes(d, Syn(iss), a, now, j);
    TickTakingKeepsIds(d, Syn(iss), a, now, j, id);
    OneIsHandled(d, Syn(iss), a, now);
    TimersKeepSlots(r, 0, now);
    SynRcvdAnswers(r.conns[j], now, r.reliable);
  }

  lemma SynRcvdAnswers(con: Conn, now: nat, reliable: seq<bool>)
    requires con.state.SynRcvd? && con.retry == 0 && Expired(con.time, now) && ConnOk(con, reliable)
    ensures var e := TimerEffect(con, now, reliable);
            && e.con == con.(time := now + RETRY_TIMEOUT, retry := 1)
            && e.sent == [Datagram(con.peer, SynAck(con.connId, con.seqNo, con.ackNo))]
  {
  }

  /** An end of a new connection: established, with empty queues and these counters on every channel. */
  predicate FreshlyOpen(con: Conn, id: ConnId, peer: Addr, reliable: seq<bool>, number: U32, ack: U32) {
    && con.state.Established? && con.connId == id && con.peer == peer
    && con.channels == Some(FreshChannels(reliable, number, ack))
  }

  lemma {:induction false} NothingToTransmit(con: Conn, ch: nat, now: nat)
    requires con.channels.Some? && ch <= |con.channels.value|
    requires forall k :: 0 <= k < |con.channels.value| ==> con.channels.value[k].sendQueue == []
    ensures TransmitFrom(con, ch, now) == Nothing(con)
    decreases |con.channels.value| - ch
  {
    if ch < |con.channels.value| {
      assert con.channels.value[ch := con.channels.value[ch]] == con.channels.value;
      assert SetChannel(con, ch, con.channels.value[ch]).(lossCount := con.lossCount + 0) == con;
      NothingToTransmit(con, ch + 1, now);
    }
  }

  /** The timers leave a connection that has just been opened as it is. */
  lemma FreshRests(con: Conn, id: ConnId, peer: Addr, reliable: seq<bool>, number: U32, ack: U32, now: nat)
    requires FreshlyOpen(con, id, peer, reliable, number, ack) && con.keepalive > now
    ensures TimerEffect(con, now, reliable).con == con
  {
    NothingToTransmit(con, 0, now);
  }

  /** The tick of a client that finds the SYN|ACK opens its end, reports it, and answers. */
  lemma TickTakesSynAck(c: Ctx, id: ConnId, b: Addr, iss: U32, ack: U32, now: nat)
    requires CtxOk(c) && c.conns[0].state.SynSent? && c.conns[0].peer == b && c.conns[0].seqNo == iss
    ensures var tick := TickTaking(c, SynAck(id, ack, iss), b, now);
            && CtxOk(tick.ctx) && tick.ctx.reliable == c.reliable
            && FreshlyOpen(tick.ctx.conns[0], id, b, c.reliable, iss, ack)
            && Kept(c.events + [Event(0, Connected)], c.eventCapacity) <= tick.ctx.events
            && Datagram(b, Ack(id, iss, ack)) in tick.sent
  {
    var p := SynAck(id, ack, iss);
    var e := SynAckEffect(c.conns[0], p, now, true, c.reliable);
    InstallIsChanged(c, 0, e, Connected);
    TickTakes(c, p, b, now, 0);
    OneIsHandled(c, p, b, now);
    TimersKeepSlots(Receive(c, p, b, now, true).ctx, 0, now);
    FreshRests(e.con, id, b, c.reliable, iss, ack, now);
  }

  /** The server's tick that finds the ACK opens its end and reports it. */
  lemma TickTakesAck(d: Ctx, a: Addr, j: nat, id: ConnId, number: U32, ack: U32, now: nat)
    requires IsAt(d, j, id) && d.conns[j].state.SynRcvd? && d.conns[j].peer == a
    ensures var tick := TickTaking(d, Ack(id, number, ack), a, now);
            && CtxOk(tick.ctx) && j < |tick.ctx.conns|
            && FreshlyOpen(tick.ctx.conns[j], id, a, d.reliable, d.conns[j].seqNo, number)
            && Kept(d.events + [Event(j, Connected)], d.eventCapacity) <= tick.ctx.events
  {
    var p := Ack(id, number, ack);
    var e := AckEffect(d.conns[j], p, now, d.reliable);
    InstallIsChanged(d, j, e, Connected);
    TickTakes(d, p, a, now, j);
    FreshRests(e.con, id, a, d.reliable, d.conns[j].seqNo, number, now);
  }

  /**
   The whole opening handshake, between any client context and any server context with a free slot and a fresh
   identifier. Four ticks, each finding what the one before it sent, open both ends under one identifier, at each
   other's addresses, with the counters of every channel crossed and both applications told.
   */
  lemma OpeningHandshake(c: Ctx, d: Ctx, a: Addr, j: nat, id: ConnId,
                         asked: nat, first: nat, second: nat, third: nat, fourth: nat)
    requires CtxOk(c) && !c.conns[0].state.Established? && 0 < asked <= first
    requires NextIs(d, a, j, id) && second > 0
    ensures CtxOk(Connect(c, asked, true).0)
    ensures var called := Tick(Connect(c, asked, true).0, [], first);
            && CtxOk(called.ctx)
            && var invited := TickTaking(d, Syn(c.iss), a, second);
               var answered := TickTaking(called.ctx, SynAck(id, d.iss, c.iss), c.server, third);
               && CtxOk(invited.ctx)
               && var settled := TickTaking(invited.ctx, Ack(id, c.iss, d.iss), a, fourth);
                  && Datagram(c.server, Syn(c.iss)) in called.sent
                  && Datagram(a, SynAck(id, d.iss, c.iss)) in invited.sent
                  && Datagram(c.server, Ack(id, c.iss, d.iss)) in answered.sent
                  && |answered.ctx.conns| >= 1 && FreshlyOpen(answered.ctx.conns[0], id, c.server, c.reliable, c.iss, d.iss)
                  && j < |settled.ctx.conns| && FreshlyOpen(settled.ctx.conns[j], id, a, d.reliable, d.iss, c.iss)
                  && Kept(called.ctx.events + [Event(0, Connected)], c.eventCapacity) <= answered.ctx.events
                  && Kept(invited.ctx.events + [Event(j, Connected)], d.eventCapacity) <= settled.ctx.events
  {
    var called := Tick(Connect(c, asked, true).0, [], first);
    ConnectSendsSyn(c, asked, first);
    TickKeepsCapacity(Connect(c, asked, true).0, first);
    TickTakesSyn(d, a, j, id, c.iss, second);
    SynKeepsCapacity(d, Syn(c.iss), a, second);
    TickTakesSynAck(called.ctx, id, c.server, c.iss, d.iss, third);
    TickTakesAck(TickTaking(d, Syn(c.iss), a, second).ctx, a, j, id, c.iss, d.iss, fourth);
  }

  lemma SynKeepsCapacity(c: Ctx, p: Packet, from: Addr, now: nat)
    requires CtxOk(c)
    ensures TickTaking(c, p, from, now).ctx.eventCapacity == c.eventCapacity
  {
    OneIsHandled(c, p, from, now);
    ReceiveKeepsSlots(c, p, from, now, true);
    TimersKeepSlots(Receive(c, p, from, now, true).ctx, 0, now);
  }

  /**
   When the last ACK was lost: an established client that finds a SYN|ACK again changes nothing, reports nothing,
   and answers it with the present counters of its first channel.
   */
  lemma AckIsRepeated(c: Ctx, p: Packet, from: Addr, now: nat)
    requires CtxOk(c) && c.conns[0].state.Established? && p.ctrl == SYN_ACK
    ensures var con := c.conns[0];
            && con.channels.Some? && con.channels.value != []
            && Receive(c, p, from, now, true)
               == Outcome(c, [Datagram(con.peer, Ack(con.connId, con.channels.value[0].seqNo, con.channels.value[0].ackNo))])
  {
    assert ConnOk(c.conns[0], c.reliable);
    assert c.conns[0 := c.conns[0]] == c.conns;
  }

  // ---------- PING and PONG ----------

  /**
   A PING is answered whatever the context knows of it, to where it came from, on its channel; the answer carries
   back the clock the PING was sent at.
   */
  lemma ClockIsEchoed(con: Conn, sent: nat, d: Ctx, from: Addr, now: nat, sendOk: bool)
    requires CtxOk(d) && sent < 0x1_0000_0000_0000_0000
    ensures var out := Receive(d, PingPacket(con, sent), from, now, sendOk);
            && out.ctx == d && |out.sent| == 1 && out.sent[0].to == from
            && out.sent[0].packet.ctrl == PONG && out.sent[0].packet.connId == con.connId
            && 0x1_0000_0000 * out.sent[0].packet.seqNo + out.sent[0].packet.ackNo == sent
  {
  }

  /** And it restarts the keepalive of whoever sent the PING, in any state, and changes nothing else. */
  lemma AnswerRestartsKeepalive(c: Ctx, i: nat, ping: Packet, d: Ctx, from: Addr, at: nat,
                                back: Addr, now: nat, sendOk: bool)
    requires IsAt(c, i, ping.connId) && CtxOk(d) && ping.ctrl == PING
    ensures var out := Receive(d, ping, from, at, sendOk);
            && out.sent == [Datagram(from, Packet(PONG, ping.channel, ping.connId, ping.seqNo, ping.ackNo, []))]
            && Receive(c, out.sent[0].packet, back, now, sendOk)
               == Outcome(c.(conns := c.conns[i := c.conns[i].(keepaliveRetry := 0, keepalive := now + 200)]), [])
  {
  }
}
