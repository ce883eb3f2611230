/**
 One context of the library as a value, and every operation on it as a function: the packet handlers
 and timers of a tick, and the calls of the public interface. The methods of module Context are proved
 to compute these functions; the theorems about runs are proved on them.
 */
module Endpoint {
  import opened Wrappers
  import opened Protocol

  datatype State = Closed | Established | SynSent | SynRcvd | FinSent

  /** A packet waiting in a send queue. */
  datatype Entry = Entry(packet: Packet, timestamp: nat, retransmits: nat)

  datatype Chan = Chan(reliable: bool, seqNo: U32, ackNo: U32, sendQueue: seq<Entry>, recvQueue: seq<Packet>)

  datatype Conn = Conn(
    peer: Addr,
    connId: ConnId,
    state: State,
    retry: nat,
    keepaliveRetry: nat,
    lossCount: nat,
    desyncCount: nat,
    seqNo: U32,
    ackNo: U32,
    channels: Option<seq<Chan>>,
    time: nat,
    keepalive: nat)

  datatype Reason = ByPeer | Timeout | Reset

  datatype Note =
    | Connected
    | Disconnected(reason: Reason)
    | Received(channel: U8)
    | Migrated
    | Stalled(seqNo: U32)

  /** An event of the application's queue: a note about the connection in one slot. */
  datatype Event = Event(slot: nat, note: Note)

  datatype Ctx = Ctx(
    conns: seq<Conn>,
    reliable: seq<bool>,
    events: seq<Event>,
    eventCapacity: nat,
    clientId: U16,
    clientGen: U16,
    iss: U32,
    server: Addr,
    blocks: int)

  const ZEROED := Conn(NO_ADDR, ConnId(0, 0), Closed, 0, 0, 0, 0, 0, 0, None, 0, 0)

  /** A context as it is created: every slot zeroed, identifiers starting at 1. */
  function Created(slots: nat, reliable: seq<bool>, eventCapacity: nat, iss: U32, server: Addr): Ctx {
    Ctx(seq(slots, i => ZEROED), reliable, [], eventCapacity, 1, 0, iss, server, 0)
  }

  // ---------- Well-formed contexts ----------

  predicate ChanOk(ch: Chan, reliable: bool) {
    && ch.reliable == reliable
    && |ch.sendQueue| <= QUEUE_CAPACITY
    && |ch.recvQueue| <= QUEUE_CAPACITY
  }

  predicate ChannelsOk(chans: seq<Chan>, reliable: seq<bool>) {
    && |chans| == |reliable|
    && forall i :: 0 <= i < |chans| ==> ChanOk(chans[i], reliable[i])
  }

  /** A connection that can carry data has its channels. */
  predicate ConnOk(con: Conn, reliable: seq<bool>) {
    && (con.channels.Some? ==> ChannelsOk(con.channels.value, reliable))
    && (con.state.Established? || con.state.FinSent? ==> con.channels.Some?)
  }

  predicate CtxOk(c: Ctx) {
    && |c.conns| >= 1
    && 1 <= |c.reliable| <= 255
    && |c.events| <= c.eventCapacity
    && forall i :: 0 <= i < |c.conns| ==> ConnOk(c.conns[i], c.reliable)
  }

  // ---------- Events ----------

  /** A full event queue drops what is pushed. */
  function PushEvent(events: seq<Event>, capacity: nat, e: Event): seq<Event> {
    if |events| < capacity then events + [e] else events
  }

  function PushNotes(events: seq<Event>, capacity: nat, slot: nat, notes: seq<Note>): (r: seq<Event>)
    ensures |events| <= capacity ==> |r| <= capacity
  {
    if notes == [] then events
    else PushEvent(PushNotes(events, capacity, slot, notes[..|notes| - 1]), capacity, Event(slot, notes[|notes| - 1]))
  }

  lemma {:induction false} PushNotesAppend(events: seq<Event>, capacity: nat, slot: nat, a: seq<Note>, b: seq<Note>)
    ensures PushNotes(events, capacity, slot, a + b)
         == PushNotes(PushNotes(events, capacity, slot, a), capacity, slot, b)
    decreases |b|
  {
    if b == [] {
      assert a + b == a;
    } else {
      var front := b[..|b| - 1];
      assert (a + b)[..|a + b| - 1] == a + front;
      PushNotesAppend(events, capacity, slot, a, front);
    }
  }

  // ---------- Results ----------

  /** What handling something does to one connection, and what it sends, reports and allocates. */
  datatype Effect = Effect(con: Conn, notes: seq<Note>, sent: seq<Datagram>, blocks: int)

  datatype Outcome = Outcome(ctx: Ctx, sent: seq<Datagram>)

  function Followed(first: Outcome, second: Outcome): Outcome {
    Outcome(second.ctx, first.sent + second.sent)
  }

  lemma AppendAssociates<T>(a: seq<T>, b: seq<T>, c: seq<T>)
    ensures (a + b) + c == a + (b + c)
  {
  }

  lemma FollowedAssociates(a: Outcome, b: Outcome, c: Outcome)
    ensures Followed(Followed(a, b), c) == Followed(a, Followed(b, c))
  {
  }

  function Nothing(con: Conn): Effect {
    Effect(con, [], [], 0)
  }

  function Install(c: Ctx, slot: nat, e: Effect): Outcome
    requires slot < |c.conns|
  {
    Outcome(
      c.(conns := c.conns[slot := e.con],
         events := PushNotes(c.events, c.eventCapacity, slot, e.notes),
         blocks := c.blocks + e.blocks),
      e.sent)
  }

  // ---------- Channels of a connection ----------

  /** Blocks a live channel array occupies: the array and two queues a channel. */
  function ChannelBlocks(reliable: seq<bool>): nat {
    1 + 2 * |reliable|
  }

  function FreshChannels(reliable: seq<bool>, seq0: U32, ack0: U32): (chans: seq<Chan>)
    ensures ChannelsOk(chans, reliable)
  {
    seq(|reliable|, i requires 0 <= i < |reliable| => Chan(reliable[i], seq0, ack0, [], []))
  }

  /** The blocks given back when the channels of a connection are freed. */
  function FreedBlocks(con: Conn, reliable: seq<bool>): int {
    if con.channels.Some? then ChannelBlocks(reliable) else 0
  }

  // ---------- Looking connections up ----------

  function FindById(conns: seq<Conn>, id: ConnId): (slot: Option<nat>)
    ensures slot.Some? ==> slot.value < |conns| && conns[slot.value].connId == id
    ensures slot.Some? ==> forall j :: 0 <= j < slot.value ==> conns[j].connId != id
    ensures slot.None? ==> forall j :: 0 <= j < |conns| ==> conns[j].connId != id
  {
    if conns == [] then None
    else if conns[0].connId == id then Some(0)
    else var rest := FindById(conns[1..], id);
         if rest.Some? then Some(rest.value + 1) else None
  }

  function FindByAddr(conns: seq<Conn>, addr: Addr): (slot: Option<nat>)
    ensures slot.Some? ==> slot.value < |conns| && conns[slot.value].peer == addr
    ensures slot.Some? ==> forall j :: 0 <= j < slot.value ==> conns[j].peer != addr
    ensures slot.None? ==> forall j :: 0 <= j < |conns| ==> conns[j].peer != addr
  {
    if conns == [] then None
    else if conns[0].peer == addr then Some(0)
    else var rest := FindByAddr(conns[1..], addr);
         if rest.Some? then Some(rest.value + 1) else None
  }

  function FindClosed(conns: seq<Conn>): (slot: Option<nat>)
    ensures slot.Some? ==> slot.value < |conns| && conns[slot.value].state.Closed?
    ensures slot.Some? ==> forall j :: 0 <= j < slot.value ==> !conns[j].state.Closed?
    ensures slot.None? ==> forall j :: 0 <= j < |conns| ==> !conns[j].state.Closed?
  {
    if conns == [] then None
    else if conns[0].state.Closed? then Some(0)
    else var rest := FindClosed(conns[1..]);
         if rest.Some? then Some(rest.value + 1) else None
  }

  // ---------- Client identifiers ----------

  /** The next identifier, and the counter after it. Identifier 0xFFFF is never handed out. */
  function GenerateClientId(clientId: U16, clientGen: U16): (r: (ConnId, U16)) {
    var next := (clientId + 1) % 0x1_0000;
    if next == 0xFFFF then (ConnId((clientGen + 1) % 0x1_0000, clientId), 0)
    else (ConnId(clientGen, clientId), next)
  }

  // ---------- Packet handlers, one connection each ----------

  function SynEffect(con: Conn, from: Addr, now: nat): Effect {
    if con.state.Established? then Nothing(con)
    else Nothing(con.(state := SynRcvd, retry := 0, lossCount := 0, peer := from, time := now))
  }

  function AckEffect(con: Conn, p: Packet, now: nat, reliable: seq<bool>): Effect {
    if !con.state.SynRcvd? then Nothing(con)
    else Effect(
      con.(state := Established,
           channels := Some(FreshChannels(reliable, con.seqNo, p.seqNo)),
           keepaliveRetry := 0,
           keepalive := now + KEEPALIVE_TIME),
      [Connected], [], ChannelBlocks(reliable))
  }

  /** The connection after a SYN|ACK, before the reply is sent. */
  function SynAckPrepared(con: Conn, p: Packet, now: nat, reliable: seq<bool>): Conn {
    var known := if con.state.SynSent? then con.(connId := p.connId) else con;
    if known.state.Established? then known
    else known.(channels := Some(FreshChannels(reliable, known.seqNo, p.seqNo)),
                keepaliveRetry := 0,
                keepalive := now + KEEPALIVE_TIME,
                ackNo := p.seqNo)
  }

  function SynAckEffect(con: Conn, p: Packet, now: nat, sendOk: bool, reliable: seq<bool>): Effect
    requires ConnOk(con, reliable) && |reliable| >= 1
  {
    var ready := SynAckPrepared(con, p, now, reliable);
    var first := ready.channels.value[0];
    var reply := Packet(ACK, 0, ready.connId, first.seqNo, first.ackNo, []);
    var notes := if con.state.Established? then [] else [Connected];
    var blocks := if con.state.Established? then 0 else ChannelBlocks(reliable);
    if sendOk then Effect(ready.(state := Established), notes, [Datagram(ready.peer, reply)], blocks)
    else Effect(ready, notes, [], blocks)
  }

  function CloseByPeer(con: Conn, sent: seq<Datagram>, reliable: seq<bool>): Effect {
    if con.state.Closed? then Effect(con, [], sent, 0)
    else Effect(con.(state := Closed, channels := None), [Disconnected(ByPeer)], sent, -FreedBlocks(con, reliable))
  }

  function FinEffect(con: Conn, sendOk: bool, reliable: seq<bool>): Effect {
    if sendOk then CloseByPeer(con, [Datagram(con.peer, Packet(FIN_ACK, 0, con.connId, 0, 0, []))], reliable)
    else Nothing(con)
  }

  function FinAckEffect(con: Conn, reliable: seq<bool>): Effect {
    CloseByPeer(con, [], reliable)
  }

  function DataAck(con: Conn, channel: U8, chan: Chan, echoed: U32): Datagram {
    Datagram(con.peer, Packet(DATA_ACK, channel, con.connId, chan.seqNo, echoed, []))
  }

  function SetChannel(con: Conn, channel: nat, chan: Chan): Conn
    requires con.channels.Some? && channel < |con.channels.value|
  {
    con.(channels := Some(con.channels.value[channel := chan]))
  }

  /** Acceptance: the packet is queued if there is room, and counted either way. */
  function AcceptData(con: Conn, p: Packet): Effect
    requires con.channels.Some? && p.channel < |con.channels.value|
  {
    var chan := con.channels.value[p.channel];
    var queued := if |chan.recvQueue| < QUEUE_CAPACITY then chan.recvQueue + [p] else chan.recvQueue;
    var after := chan.(recvQueue := queued, ackNo := Next32(chan.ackNo));
    Effect(SetChannel(con, p.channel, after),
           [Received(p.channel)],
           if chan.reliable then [DataAck(con, p.channel, chan, p.seqNo)] else [],
           0)
  }

  /** A packet from the connection's peer: acknowledged again, dropped, or accepted, by its number. */
  function SequencedData(con: Conn, p: Packet): Effect
    requires con.channels.Some? && p.channel < |con.channels.value|
  {
    var chan := con.channels.value[p.channel];
    if p.seqNo < chan.ackNo && chan.reliable then Effect(con, [], [DataAck(con, p.channel, chan, p.seqNo)], 0)
    else if p.seqNo > chan.ackNo && chan.reliable then Nothing(con.(desyncCount := con.desyncCount + 1))
    else AcceptData(con, p)
  }

  /** Only the packet a reliable channel waits for may come from a new address. */
  function DataEffect(con: Conn, p: Packet, from: Addr, reliable: seq<bool>): Effect
    requires ConnOk(con, reliable)
  {
    if !con.state.Established? || p.channel >= |reliable| then Nothing(con)
    else if con.peer == from then SequencedData(con, p)
    else
      var chan := con.channels.value[p.channel];
      if chan.reliable && p.seqNo == chan.ackNo then
        var e := SequencedData(con.(peer := from), p);
        e.(notes := [Migrated] + e.notes)
      else Nothing(con)
  }

  function DataAckEffect(con: Conn, p: Packet, reliable: seq<bool>): Effect
    requires ConnOk(con, reliable)
  {
    if !con.state.Established? || p.channel >= |reliable| then Nothing(con)
    else
      var chan := con.channels.value[p.channel];
      if chan.sendQueue != [] && chan.sendQueue[0].packet.seqNo == p.ackNo then
        Nothing(SetChannel(con, p.channel, chan.(sendQueue := chan.sendQueue[1..])))
      else Nothing(con)
  }

  function PongEffect(con: Conn, now: nat): Effect {
    Nothing(con.(keepaliveRetry := 0, keepalive := now + KEEPALIVE_TIME))
  }

  function RstEffect(con: Conn, reliable: seq<bool>): Effect {
    if con.state.Established? then
      Effect(con.(state := Closed, channels := None), [Disconnected(Reset)], [], -FreedBlocks(con, reliable))
    else
      Effect(con.(state := Closed), [Disconnected(Reset)], [], 0)
  }

  // ---------- Dispatch ----------

  /** The slot a SYN is for, after the bookkeeping of a new connection. */
  function AssignSlot(c: Ctx, p: Packet, from: Addr): (r: (Ctx, Option<nat>))
    ensures r.1.Some? ==> r.1.value < |r.0.conns|
    ensures r.1.None? ==> r.0 == c
  {
    var known := FindByAddr(c.conns, from);
    if known.Some? then (c, known)
    else
      var slot := FindClosed(c.conns);
      if slot.None? then (c, None)
      else
        var (id, next) := GenerateClientId(c.clientId, c.clientGen);
        var con := c.conns[slot.value].(retry := 0, channels := None, time := 0,
                                        connId := id, seqNo := c.iss, ackNo := p.seqNo);
        (c.(conns := c.conns[slot.value := con], clientId := next), slot)
  }

  function OnSyn(c: Ctx, p: Packet, from: Addr, now: nat): Outcome {
    var (placed, slot) := AssignSlot(c, p, from);
    if slot.None? then Outcome(c, [Datagram(from, Packet(RST, 0, UNASSIGNED, 0, 0, []))])
    else Install(placed, slot.value, SynEffect(placed.conns[slot.value], from, now))
  }

  predicate IsAddressed(p: Packet) {
    p.ctrl == ACK || p.ctrl == FIN || p.ctrl == FIN_ACK || p.ctrl == DATA || p.ctrl == DATA_ACK
    || p.ctrl == PONG || p.ctrl == RST
  }

  /** The handlers that look the connection up by its identifier. */
  function AddressedEffect(con: Conn, p: Packet, from: Addr, now: nat, sendOk: bool, reliable: seq<bool>): Effect
    requires ConnOk(con, reliable)
    requires IsAddressed(p)
  {
    if p.ctrl == ACK then AckEffect(con, p, now, reliable)
    else if p.ctrl == FIN then FinEffect(con, sendOk, reliable)
    else if p.ctrl == FIN_ACK then FinAckEffect(con, reliable)
    else if p.ctrl == DATA then DataEffect(con, p, from, reliable)
    else if p.ctrl == DATA_ACK then DataAckEffect(con, p, reliable)
    else if p.ctrl == PONG then PongEffect(con, now)
    else RstEffect(con, reliable)
  }

  function OnAddressed(c: Ctx, p: Packet, from: Addr, now: nat, sendOk: bool): Outcome
    requires CtxOk(c) && IsAddressed(p)
  {
    var slot := FindById(c.conns, p.connId);
    if slot.None? then Outcome(c, [])
    else Install(c, slot.value, AddressedEffect(c.conns[slot.value], p, from, now, sendOk, c.reliable))
  }

  /** One received packet. `sendOk` says whether the socket takes the reply. */
  function Receive(c: Ctx, p: Packet, from: Addr, now: nat, sendOk: bool): Outcome
    requires CtxOk(c)
  {
    if p.ctrl == SYN && p.connId.id == 0xFFFF then OnSyn(c, p, from, now)
    else if p.ctrl == SYN_ACK then Install(c, 0, SynAckEffect(c.conns[0], p, now, sendOk, c.reliable))
    else if p.ctrl == PING then Outcome(c, [Datagram(from, p.(ctrl := PONG, payload := []))])
    else if IsAddressed(p) then OnAddressed(c, p, from, now, sendOk)
    else Outcome(c, [])
  }

  // ---------- Timers and transmission ----------

  /** SYN, SYN|ACK and FIN share one schedule: five sends, each waiting longer than the last. */
  function RetryEffect(con: Conn, now: nat, packet: Packet, giveUp: Effect): Effect {
    if con.retry >= MAX_RETRY then giveUp
    else Effect(con.(time := now + RETRY_TIMEOUT * (con.retry + 1), retry := con.retry + 1),
                [], [Datagram(con.peer, packet)], 0)
  }

  function HandshakePacket(con: Conn, ctrl: U8): Packet {
    Packet(ctrl, 0, con.connId, con.seqNo, con.ackNo, [])
  }

  datatype Transmission = Transmission(chan: Chan, notes: seq<Note>, sent: seq<Datagram>, losses: nat)

  /** The head of one send queue: sent when its timer has run out, dropped if nobody will acknowledge it. */
  function TransmitHead(chan: Chan, peer: Addr, now: nat): Transmission {
    if chan.sendQueue == [] || !Expired(chan.sendQueue[0].timestamp, now) then Transmission(chan, [], [], 0)
    else
      var head := chan.sendQueue[0];
      var sent := [Datagram(peer, head.packet)];
      if !chan.reliable then Transmission(chan.(sendQueue := chan.sendQueue[1..]), [], sent, 0)
      else
        var waiting := head.(timestamp := now + RETRANSMISSION_TIMEOUT, retransmits := head.retransmits + 1);
        if waiting.retransmits > MAX_RETRY then
          Transmission(chan.(sendQueue := chan.sendQueue[0 := waiting.(retransmits := 0)]),
                       [Stalled(head.packet.seqNo)], sent, 1)
        else Transmission(chan.(sendQueue := chan.sendQueue[0 := waiting]), [], sent, 0)
  }

  /** Channels `ch` and up, in order. */
  function TransmitFrom(con: Conn, ch: nat, now: nat): (e: Effect)
    requires con.channels.Some? && ch <= |con.channels.value|
    ensures e.con.channels.Some? && |e.con.channels.value| == |con.channels.value|
    decreases |con.channels.value| - ch
  {
    if ch == |con.channels.value| then Nothing(con)
    else
      var t := TransmitHead(con.channels.value[ch], con.peer, now);
      var rest := TransmitFrom(SetChannel(con, ch, t.chan).(lossCount := con.lossCount + t.losses), ch + 1, now);
      Effect(rest.con, t.notes + rest.notes, t.sent + rest.sent, 0)
  }

  /** A PING carries the clock in its two counters. */
  function PingPacket(con: Conn, now: nat): Packet {
    Packet(PING, 0, con.connId, (now / 0x1_0000_0000) % 0x1_0000_0000, now % 0x1_0000_0000, [])
  }

  function KeepaliveEffect(con: Conn, now: nat, reliable: seq<bool>): Effect {
    if !Expired(con.keepalive, now) then Nothing(con)
    else if con.keepaliveRetry > KEEPALIVE_RETRY then
      Effect(con.(state := Closed, channels := None), [Disconnected(Timeout)], [], -FreedBlocks(con, reliable))
    else Effect(con.(keepalive := now + KEEPALIVE_TIME * (con.keepaliveRetry + 1),
                     keepaliveRetry := con.keepaliveRetry + 1),
                [], [Datagram(con.peer, PingPacket(con, now))], 0)
  }

  function Then(first: Effect, second: Effect): Effect {
    Effect(second.con, first.notes + second.notes, first.sent + second.sent, first.blocks + second.blocks)
  }

  lemma ThenAssociates(a: Effect, b: Effect, c: Effect)
    ensures Then(Then(a, b), c) == Then(a, Then(b, c))
  {
  }

  /** Channel `ch` alone. */
  function TransmitOne(con: Conn, ch: nat, now: nat): Effect
    requires con.channels.Some? && ch < |con.channels.value|
  {
    var t := TransmitHead(con.channels.value[ch], con.peer, now);
    Effect(SetChannel(con, ch, t.chan).(lossCount := con.lossCount + t.losses), t.notes, t.sent, 0)
  }

  lemma {:induction false} TransmitUnfolds(con: Conn, ch: nat, now: nat)
    requires con.channels.Some? && ch < |con.channels.value|
    ensures TransmitFrom(con, ch, now) == Then(TransmitOne(con, ch, now), TransmitFrom(TransmitOne(con, ch, now).con, ch + 1, now))
  {
    TransmitKeepsBlocks(TransmitOne(con, ch, now).con, ch + 1, now);
  }

  lemma {:induction false} TransmitKeepsBlocks(con: Conn, ch: nat, now: nat)
    requires con.channels.Some? && ch <= |con.channels.value|
    ensures TransmitFrom(con, ch, now).blocks == 0
  {
  }

  /** The timers of one connection. */
  function TimerEffect(con: Conn, now: nat, reliable: seq<bool>): Effect
    requires ConnOk(con, reliable)
  {
    match con.state
    case SynSent =>
      if Expired(con.time, now) then
        RetryEffect(con, now, HandshakePacket(con, SYN), Effect(con.(state := Closed), [Disconnected(Timeout)], [], 0))
      else Nothing(con)
    case SynRcvd =>
      if Expired(con.time, now) then
        RetryEffect(con, now, HandshakePacket(con, SYN_ACK), Nothing(con.(state := Closed)))
      else Nothing(con)
    case FinSent =>
      if Expired(con.time, now) then
        RetryEffect(con, now, Packet(FIN, 0, con.connId, 0, 0, []),
                    Effect(con.(state := Closed, channels := None), [Disconnected(Timeout)], [], -FreedBlocks(con, reliable)))
      else Nothing(con)
    case Established =>
      var transmitted := TransmitFrom(con, 0, now);
      Then(transmitted, KeepaliveEffect(transmitted.con, now, reliable))
    case Closed => Nothing(con)
  }

  function TimerOutcome(c: Ctx, slot: nat, now: nat): Outcome
    requires CtxOk(c) && slot < |c.conns|
  {
    Install(c, slot, TimerEffect(c.conns[slot], now, c.reliable))
  }

  /** The timers of slots `slot` and up, in order. */
  function TimersFrom(c: Ctx, slot: nat, now: nat): Outcome
    requires CtxOk(c) && slot <= |c.conns|
    decreases |c.conns| - slot
  {
    if slot == |c.conns| then Outcome(c, [])
    else
      var here := TimerOutcome(c, slot, now);
      TimerOutcomeOk(c, slot, now);
      Followed(here, TimersFrom(here.ctx, slot + 1, now))
  }

  // ---------- A tick ----------

  /** What the socket yields: a datagram that fails the checks of the framing, or a packet. */
  datatype Arrival = Garbage | Valid(packet: Packet, from: Addr, now: nat, sendOk: bool)

  function ValidCount(inbox: seq<Arrival>): nat {
    if inbox == [] then 0 else (if inbox[0].Valid? then 1 else 0) + ValidCount(inbox[1..])
  }

  /** Handles the packets of an inbox in order, skipping what is not one. */
  function ReceiveAll(c: Ctx, inbox: seq<Arrival>): Outcome
    requires CtxOk(c)
    decreases |inbox|
  {
    if inbox == [] then Outcome(c, [])
    else if inbox[0].Garbage? then ReceiveAll(c, inbox[1..])
    else
      var first := Receive(c, inbox[0].packet, inbox[0].from, inbox[0].now, inbox[0].sendOk);
      ReceiveOk(c, inbox[0].packet, inbox[0].from, inbox[0].now, inbox[0].sendOk);
      Followed(first, ReceiveAll(first.ctx, inbox[1..]))
  }

  lemma {:induction false} ReceiveAllOk(c: Ctx, inbox: seq<Arrival>)
    requires CtxOk(c)
    ensures CtxOk(ReceiveAll(c, inbox).ctx)
    decreases |inbox|
  {
    if inbox != [] {
      if inbox[0].Valid? {
        ReceiveOk(c, inbox[0].packet, inbox[0].from, inbox[0].now, inbox[0].sendOk);
        ReceiveAllOk(Receive(c, inbox[0].packet, inbox[0].from, inbox[0].now, inbox[0].sendOk).ctx, inbox[1..]);
      } else {
        ReceiveAllOk(c, inbox[1..]);
      }
    }
  }

  function ReceiveOne(c: Ctx, a: Arrival): Outcome
    requires CtxOk(c)
  {
    if a.Garbage? then Outcome(c, []) else Receive(c, a.packet, a.from, a.now, a.sendOk)
  }

  /** With the timers of slots `slot` and up still to be run after `done`, the result will be `all`. */
  ghost predicate TimersLeft(all: Outcome, done: Outcome, slot: nat, now: nat) {
    CtxOk(done.ctx) && slot <= |done.ctx.conns| && all == Followed(done, TimersFrom(done.ctx, slot, now))
  }

  lemma TimersAdvance(all: Outcome, done: Outcome, slot: nat, now: nat)
    requires TimersLeft(all, done, slot, now) && slot < |done.ctx.conns|
    ensures TimersLeft(all, Followed(done, TimerOutcome(done.ctx, slot, now)), slot + 1, now)
  {
    var one := TimerOutcome(done.ctx, slot, now);
    TimerOutcomeOk(done.ctx, slot, now);
    FollowedAssociates(done, one, TimersFrom(one.ctx, slot + 1, now));
  }

  lemma TimersStart(c: Ctx, now: nat)
    requires CtxOk(c)
    ensures TimersLeft(TimersFrom(c, 0, now), Outcome(c, []), 0, now)
  {
  }

  lemma TimersEnd(all: Outcome, done: Outcome, now: nat)
    requires TimersLeft(all, done, |done.ctx.conns|, now)
    ensures all == done
  {
    assert done.sent + [] == done.sent;
  }

  /** How much of an inbox a tick consumes: up to and including its `limit`-th packet, or all of it. */
  function Consumed(inbox: seq<Arrival>, limit: nat): (n: nat)
    ensures n <= |inbox|
    ensures ValidCount(inbox[..n]) <= limit
    ensures n == |inbox| || ValidCount(inbox[..n]) == limit
    ensures 0 < n < |inbox| ==> inbox[n - 1].Valid?
  {
    if inbox == [] || limit == 0 then 0
    else
      var rest := Consumed(inbox[1..], if inbox[0].Valid? then limit - 1 else limit);
      assert inbox[..rest + 1][1..] == inbox[1..][..rest];
      rest + 1
  }

  /**
   Between two packets of a tick: `n` arrivals will be consumed in all and give `all`; `i` of them have
   been, `handled` of these were packets, and gave `done`.
   */
  ghost predicate InboxLeft(all: Outcome, done: Outcome, inbox: seq<Arrival>, i: nat, n: nat, handled: nat) {
    && handled <= RECV_LIMIT_PER_TICK && i <= n <= |inbox|
    && i + Consumed(inbox[i..], RECV_LIMIT_PER_TICK - handled) == n
    && CtxOk(done.ctx) && all == Followed(done, ReceiveAll(done.ctx, inbox[i..n]))
  }

  lemma InboxAdvances(all: Outcome, done: Outcome, inbox: seq<Arrival>, i: nat, n: nat, handled: nat)
    requires InboxLeft(all, done, inbox, i, n, handled) && handled < RECV_LIMIT_PER_TICK && i < |inbox|
    ensures InboxLeft(all, Followed(done, ReceiveOne(done.ctx, inbox[i])), inbox, i + 1, n,
                      if inbox[i].Valid? then handled + 1 else handled)
  {
    ConsumedStep(inbox, i, n, RECV_LIMIT_PER_TICK - handled);
    assert inbox[i..n][1..] == inbox[i + 1..n];
    ReceiveAllUnfolds(done, inbox[i..n]);
  }

  lemma ConsumedStep(inbox: seq<Arrival>, i: nat, n: nat, limit: nat)
    requires i < |inbox| && limit > 0 && i + Consumed(inbox[i..], limit) == n
    ensures i < n && i + 1 + Consumed(inbox[i + 1..], if inbox[i].Valid? then limit - 1 else limit) == n
  {
    assert inbox[i..][1..] == inbox[i + 1..];
  }

  lemma ReceiveAllUnfolds(done: Outcome, inbox: seq<Arrival>)
    requires CtxOk(done.ctx) && inbox != []
    ensures CtxOk(ReceiveOne(done.ctx, inbox[0]).ctx)
    ensures Followed(done, ReceiveAll(done.ctx, inbox))
         == Followed(Followed(done, ReceiveOne(done.ctx, inbox[0])), ReceiveAll(ReceiveOne(done.ctx, inbox[0]).ctx, inbox[1..]))
  {
    var one := ReceiveOne(done.ctx, inbox[0]);
    if inbox[0].Valid? {
      ReceiveOk(done.ctx, inbox[0].packet, inbox[0].from, inbox[0].now, inbox[0].sendOk);
    }
    FollowedAssociates(done, one, ReceiveAll(one.ctx, inbox[1..]));
    assert done.sent + [] == done.sent;
  }

  lemma InboxStarts(c: Ctx, inbox: seq<Arrival>)
    requires CtxOk(c)
    ensures var n := Consumed(inbox, RECV_LIMIT_PER_TICK);
            InboxLeft(ReceiveAll(c, inbox[..n]), Outcome(c, []), inbox, 0, n, 0)
  {
    assert inbox[0..] == inbox;
    assert inbox[0..Consumed(inbox, RECV_LIMIT_PER_TICK)] == inbox[..Consumed(inbox, RECV_LIMIT_PER_TICK)];
  }

  lemma InboxEnds(all: Outcome, done: Outcome, inbox: seq<Arrival>, i: nat, n: nat, handled: nat)
    requires InboxLeft(all, done, inbox, i, n, handled)
    requires handled == RECV_LIMIT_PER_TICK || i == |inbox|
    ensures i == n && all == done
  {
    assert done.sent + [] == done.sent;
  }

  function Tick(c: Ctx, inbox: seq<Arrival>, now: nat): Outcome
    requires CtxOk(c)
  {
    var received := ReceiveAll(c, inbox[..Consumed(inbox, RECV_LIMIT_PER_TICK)]);
    ReceiveAllOk(c, inbox[..Consumed(inbox, RECV_LIMIT_PER_TICK)]);
    Followed(received, TimersFrom(received.ctx, 0, now))
  }

  // ---------- The public interface ----------

  datatype Code = Success | InvalidArgument | MessageTooLong | ConnectionClosed | QueueFull | QueueEmpty

  function ConnectConn(con: Conn, iss: U32, server: Addr, now: nat, addrOk: bool): (Conn, Code) {
    var zeroed := con.(seqNo := iss, ackNo := 0, connId := UNASSIGNED, lossCount := 0);
    if addrOk then (zeroed.(peer := server, state := SynSent, retry := 0, time := now), Success)
    else (zeroed.(peer := Addr(con.peer.ip, server.port)), InvalidArgument)
  }

  /** Starts a connection from slot 0; `addrOk` says whether the configured address parses. */
  function Connect(c: Ctx, now: nat, addrOk: bool): (r: (Ctx, Code))
    requires CtxOk(c)
  {
    var (con, code) := ConnectConn(c.conns[0], c.iss, c.server, now, addrOk);
    (c.(conns := c.conns[0 := con]), code)
  }

  /** Asks the peer to close; the FIN goes out with the next tick. */
  function Close(c: Ctx, slot: nat, now: nat): (r: (Ctx, Code))
    requires slot < |c.conns|
  {
    var con := c.conns[slot];
    if !con.state.Established? then (c, ConnectionClosed)
    else (c.(conns := c.conns[slot := con.(state := FinSent, retry := 0, time := now)]), Success)
  }

  function DataPacket(con: Conn, channel: U8, chan: Chan, data: Payload): Packet {
    Packet(DATA, channel, con.connId, chan.seqNo, chan.ackNo, data)
  }

  function Send(c: Ctx, slot: nat, channel: U8, data: Payload, now: nat): (r: (Ctx, Code))
    requires CtxOk(c) && slot < |c.conns|
  {
    var con := c.conns[slot];
    if |data| == 0 || channel >= |c.reliable| then (c, InvalidArgument)
    else if |data| > MTU then (c, MessageTooLong)
    else if !con.state.Established? then (c, ConnectionClosed)
    else
      var chan := con.channels.value[channel];
      if |chan.sendQueue| >= QUEUE_CAPACITY then (c, QueueFull)
      else
        var entry := Entry(DataPacket(con, channel, chan, data), now, 0);
        var after := chan.(sendQueue := chan.sendQueue + [entry], seqNo := Next32(chan.seqNo));
        (c.(conns := c.conns[slot := SetChannel(con, channel, after)]), Success)
  }

  function PollEvent(c: Ctx): (r: (Ctx, Option<Event>)) {
    if c.events == [] then (c, None) else (c.(events := c.events[1..]), Some(c.events[0]))
  }

  /** Takes the oldest accepted payload; the channels must be live, as the library assumes. */
  function PopData(c: Ctx, slot: nat, channel: U8, buflen: nat): (r: (Ctx, Code, Payload))
    requires CtxOk(c) && slot < |c.conns| && c.conns[slot].channels.Some?
  {
    var con := c.conns[slot];
    if buflen == 0 || channel >= |c.reliable| then (c, InvalidArgument, [])
    else
      var chan := con.channels.value[channel];
      if chan.recvQueue == [] then (c, QueueEmpty, [])
      else if buflen < |chan.recvQueue[0].payload| then (c, InvalidArgument, [])
      else
        var after := chan.(recvQueue := chan.recvQueue[1..]);
        (c.(conns := c.conns[slot := SetChannel(con, channel, after)]), Success, chan.recvQueue[0].payload)
  }

  /** Exactly when the calls about data and closing succeed; when they do not, nothing has changed. */
  lemma CallsSucceedIff(c: Ctx, slot: nat, channel: U8, data: Payload, buflen: nat, now: nat)
    requires CtxOk(c) && slot < |c.conns|
    ensures var (c', code) := Send(c, slot, channel, data, now);
            && (code.Success? <==>
                  && c.conns[slot].state.Established? && channel < |c.reliable| && 1 <= |data| <= MTU
                  && |c.conns[slot].channels.value[channel].sendQueue| < QUEUE_CAPACITY)
            && (!code.Success? ==> c' == c)
    ensures var (c', code) := Close(c, slot, now);
            && (code.Success? <==> c.conns[slot].state.Established?)
            && (!code.Success? ==> c' == c)
    ensures c.conns[slot].channels.Some? ==>
              var (c', code, payload) := PopData(c, slot, channel, buflen);
              && (code.Success? <==>
                    && channel < |c.reliable| && c.conns[slot].channels.value[channel].recvQueue != []
                    && buflen > 0 && buflen >= |c.conns[slot].channels.value[channel].recvQueue[0].payload|)
              && (!code.Success? ==> c' == c && payload == [])
  {
  }

  /** Which error it is when they fail: the first that applies. */
  lemma FailuresInOrder(c: Ctx, slot: nat, channel: U8, data: Payload, buflen: nat, now: nat)
    requires CtxOk(c) && slot < |c.conns|
    ensures var code, fits := Send(c, slot, channel, data, now).1, |data| > 0 && channel < |c.reliable|;
            && (code.InvalidArgument? <==> !fits)
            && (code.MessageTooLong? <==> fits && |data| > MTU)
            && (code.ConnectionClosed? <==> fits && |data| <= MTU && !c.conns[slot].state.Established?)
            && !code.QueueEmpty?
    ensures !c.conns[slot].state.Established? ==> Close(c, slot, now).1.ConnectionClosed?
    ensures c.conns[slot].channels.Some? ==>
              var code, fits := PopData(c, slot, channel, buflen).1, buflen > 0 && channel < |c.reliable|;
              && (code.QueueEmpty? <==> fits && c.conns[slot].channels.value[channel].recvQueue == [])
              && !code.MessageTooLong? && !code.ConnectionClosed? && !code.QueueFull?
  {
  }

  /**
   A connect succeeds exactly when the address parses. When it does not, the slot goes on as it was but has lost
   its identifier, its counters and the port of its peer.
   */
  lemma ConnectSucceedsIff(c: Ctx, now: nat, addrOk: bool)
    requires CtxOk(c)
    ensures var (c', code) := Connect(c, now, addrOk);
            && (code.Success? <==> addrOk) && (code.InvalidArgument? <==> !addrOk)
            && c' == c.(conns := c.conns[0 := c'.conns[0]])
            && var con, after := c.conns[0], c'.conns[0];
               && after.connId == UNASSIGNED && after.seqNo == c.iss && after.ackNo == 0 && after.lossCount == 0
               && (!addrOk ==> after == con.(connId := after.connId, seqNo := after.seqNo, ackNo := after.ackNo,
                                             lossCount := 0, peer := Addr(con.peer.ip, c.server.port)))
  {
  }

  // ---------- The end of a context ----------

  /** The blocks of every channel array still held. */
  function Held(conns: seq<Conn>, reliable: seq<bool>): int {
    if conns == [] then 0 else Held(conns[..|conns| - 1], reliable) + FreedBlocks(conns[|conns| - 1], reliable)
  }

  /** The first `n` connections without their channels. */
  function Released(conns: seq<Conn>, n: nat): (r: seq<Conn>)
    requires n <= |conns|
    ensures |r| == |conns|
    ensures forall i :: 0 <= i < |conns| ==> r[i] == if i < n then conns[i].(channels := None) else conns[i]
  {
    seq(|conns|, i requires 0 <= i < |conns| => if i < n then conns[i].(channels := None) else conns[i])
  }

  // ---------- Every operation keeps a context well-formed ----------

  lemma SetChannelOk(con: Conn, channel: nat, chan: Chan, reliable: seq<bool>)
    requires ConnOk(con, reliable) && con.channels.Some? && channel < |reliable|
    requires ChanOk(chan, reliable[channel])
    ensures ConnOk(SetChannel(con, channel, chan), reliable)
  {
  }

  lemma InstallOk(c: Ctx, slot: nat, e: Effect)
    requires CtxOk(c) && slot < |c.conns| && ConnOk(e.con, c.reliable)
    ensures CtxOk(Install(c, slot, e).ctx)
  {
  }

  lemma AddressedEffectOk(con: Conn, p: Packet, from: Addr, now: nat, sendOk: bool, reliable: seq<bool>)
    requires ConnOk(con, reliable) && IsAddressed(p)
    ensures ConnOk(AddressedEffect(con, p, from, now, sendOk, reliable).con, reliable)
  {
  }

  lemma {:induction false} TransmitFromOk(con: Conn, ch: nat, now: nat, reliable: seq<bool>)
    requires ConnOk(con, reliable) && con.channels.Some? && ch <= |reliable|
    ensures ConnOk(TransmitFrom(con, ch, now).con, reliable)
    ensures TransmitFrom(con, ch, now).con.state == con.state
    decreases |reliable| - ch
  {
    if ch < |reliable| {
      var t := TransmitHead(con.channels.value[ch], con.peer, now);
      SetChannelOk(con, ch, t.chan, reliable);
      TransmitFromOk(SetChannel(con, ch, t.chan).(lossCount := con.lossCount + t.losses), ch + 1, now, reliable);
    }
  }

  lemma TimerOutcomeOk(c: Ctx, slot: nat, now: nat)
    requires CtxOk(c) && slot < |c.conns|
    ensures CtxOk(TimerOutcome(c, slot, now).ctx)
    ensures |TimerOutcome(c, slot, now).ctx.conns| == |c.conns|
  {
    var con := c.conns[slot];
    if con.state.Established? {
      TransmitFromOk(con, 0, now, c.reliable);
    }
    InstallOk(c, slot, TimerEffect(con, now, c.reliable));
  }

  lemma {:induction false} TimersFromOk(c: Ctx, slot: nat, now: nat)
    requires CtxOk(c) && slot <= |c.conns|
    ensures CtxOk(TimersFrom(c, slot, now).ctx)
    ensures |TimersFrom(c, slot, now).ctx.conns| == |c.conns|
    ensures TimersFrom(c, slot, now).ctx.reliable == c.reliable
    decreases |c.conns| - slot
  {
    if slot < |c.conns| {
      TimerOutcomeOk(c, slot, now);
      TimersFromOk(TimerOutcome(c, slot, now).ctx, slot + 1, now);
    }
  }

  lemma OnSynOk(c: Ctx, p: Packet, from: Addr, now: nat)
    requires CtxOk(c)
    ensures CtxOk(OnSyn(c, p, from, now).ctx)
  {
    var (placed, slot) := AssignSlot(c, p, from);
    if slot.Some? {
      InstallOk(placed, slot.value, SynEffect(placed.conns[slot.value], from, now));
    }
  }

  /** A live connection has its channels, in every reachable context. */
  lemma ReceiveOk(c: Ctx, p: Packet, from: Addr, now: nat, sendOk: bool)
    requires CtxOk(c)
    ensures CtxOk(Receive(c, p, from, now, sendOk).ctx)
  {
    if p.ctrl == SYN && p.connId.id == 0xFFFF {
      OnSynOk(c, p, from, now);
    } else if p.ctrl == SYN_ACK {
      InstallOk(c, 0, SynAckEffect(c.conns[0], p, now, sendOk, c.reliable));
    } else if p.ctrl != PING && IsAddressed(p) {
      var slot := FindById(c.conns, p.connId);
      if slot.Some? {
        var con := c.conns[slot.value];
        AddressedEffectOk(con, p, from, now, sendOk, c.reliable);
        InstallOk(c, slot.value, AddressedEffect(con, p, from, now, sendOk, c.reliable));
      }
    }
  }

  lemma SendOk(c: Ctx, slot: nat, channel: U8, data: Payload, now: nat)
    requires CtxOk(c) && slot < |c.conns|
    ensures CtxOk(Send(c, slot, channel, data, now).0)
  {
  }

  lemma PopDataOk(c: Ctx, slot: nat, channel: U8, buflen: nat)
    requires CtxOk(c) && slot < |c.conns| && c.conns[slot].channels.Some?
    ensures CtxOk(PopData(c, slot, channel, buflen).0)
  {
  }
}
