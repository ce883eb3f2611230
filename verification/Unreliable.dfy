/**
 Channels that nobody acknowledges. Over every run each message queued goes out once, in order; the receiver
 takes every one that reaches it from its peer, in the order they arrive; and nothing is taken that the other
 end did not queue.
 */
module Unreliable {
  import opened Wrappers
  import opened Protocol
  import opened Endpoint
  import opened Runs
  import opened Node
  import opened NodeSteps
  import opened Session
  import opened Slots
  import opened SendQueues
  import opened Accounting

  // ---------- What a DATA packet does ----------

  /** The answer of a reliable channel. */
  function Acknowledgement(con: Conn, chan: Chan, to: Addr, k: U8, number: U32): Datagram {
    Datagram(to, Packet(DATA_ACK, k, con.connId, chan.seqNo, number, []))
  }

  /**
   Accepting a packet settles the peer's address, and is answered there on a reliable channel and not at all on an
   unreliable one.
   */
  lemma AcceptanceAnswers(c: Ctx, p: Packet, from: Addr, sendOk: bool, now: nat, i: nat)
    requires CtxOk(c) && Up(c, i, p.channel) && Arrives(c, p, from, i, p.channel)
    ensures var out, con, chan := Receive(c, p, from, now, sendOk), c.conns[i], ChanAt(c, i, p.channel);
            && |out.ctx.conns| == |c.conns| && out.ctx.conns[i].peer == from
            && out.sent == if c.reliable[p.channel] then [Acknowledgement(con, chan, from, p.channel, p.seqNo)] else []
  {
    assert ChanOk(ChanAt(c, i, p.channel), c.reliable[p.channel]);
  }

  /**
   Any other DATA for the channel changes nothing, except that an old one from the peer is acknowledged again
   and one from the future is counted.
   */
  lemma RefusalAnswers(c: Ctx, p: Packet, from: Addr, sendOk: bool, now: nat, i: nat)
    requires CtxOk(c) && Up(c, i, p.channel) && p.ctrl == DATA && FindById(c.conns, p.connId) == Some(i)
    requires !Arrives(c, p, from, i, p.channel)
    ensures var out, con, chan := Receive(c, p, from, now, sendOk), c.conns[i], ChanAt(c, i, p.channel);
            var known := c.reliable[p.channel] && from == con.peer;
            && out.ctx.events == c.events && |out.ctx.conns| == |c.conns|
            && out.ctx.conns[i] == con.(desyncCount := con.desyncCount + if known && p.seqNo > chan.ackNo then 1 else 0)
            && out.sent == if known && p.seqNo < chan.ackNo
                           then [Acknowledgement(con, chan, con.peer, p.channel, p.seqNo)] else []
  {
    assert ChanOk(ChanAt(c, i, p.channel), c.reliable[p.channel]);
  }

  // ---------- Receiving ----------

  /** A record of one channel, and the payloads of all DATA for it that reached it from its peer. */
  datatype Hearing = Hearing(record: Record, heard: seq<Payload>)

  /** The action delivers a DATA packet for channel `k` of slot `i`, sent from the peer's address. */
  predicate FromPeer(c: Ctx, a: Action, i: nat, k: nat)
    requires Up(c, i, k)
  {
    && a.Recv? && a.packet.ctrl == DATA && a.packet.channel == k
    && FindById(c.conns, a.packet.connId) == Some(i) && a.from == c.conns[i].peer
  }

  ghost predicate HearingStep(i: nat, k: nat, h: Hearing, t: Timed, h': Hearing) {
    && RecordStep(i, k, h.record, t, h'.record)
    && h'.heard == if FromPeer(h.record.node.ctx, t.action, i, k) then h.heard + [t.action.packet.payload] else h.heard
  }

  ghost predicate HeardAll(i: nat, k: nat, h: Hearing) {
    && RecordOk(i, k, h.record) && !h.record.node.ctx.reliable[k]
    && h.record.accepted == h.heard
  }

  lemma HearingStepOk(i: nat, k: nat, h: Hearing, t: Timed, h': Hearing)
    requires HearingStep(i, k, h, t, h') && HeardAll(i, k, h)
    ensures HeardAll(i, k, h')
  {
    RecordStepOk(i, k, h.record, t, h'.record);
    var c, c' := h.record.node.ctx, h'.record.node.ctx;
    var m := ActStays(h.record.node, t.action, t.now, i, k);
    MoveShows(c, t.action, t.now, c', i, k, m);
  }

  /**
   From the step that establishes a slot on, while it stays established, an unreliable channel accepts exactly
   what reaches it from its peer, in the order of delivery, whatever numbers the packets carry; and what was
   popped followed by what waits is all of that exactly when the receive queue was never full.
   */
  lemma TakesWhatArrives(n: Node, t: Timed, states: seq<Hearing>, run: seq<Timed>, i: nat, k: nat, m: nat)
    requires IsRun((h, t, h') => HearingStep(i, k, h, t, h'), states, run) && m < |states|
    requires RecordStart(i, k, n, t, states[0].record) && states[0].heard == []
    requires !states[0].record.node.ctx.reliable[k]
    ensures states[m].record.accepted == states[m].heard
    ensures Up(states[m].record.node.ctx, i, k)
    ensures states[m].record.popped + Payloads(ChanAt(states[m].record.node.ctx, i, k).recvQueue) == states[m].heard
       <==> !states[m].record.overflowed
  {
    var step := (h: Hearing, t: Timed, h': Hearing) => HearingStep(i, k, h, t, h');
    assert Preserves(step, h => HeardAll(i, k, h)) by {
      forall h: Hearing, t: Timed, h': Hearing | step(h, t, h') && HeardAll(i, k, h) ensures HeardAll(i, k, h') {
        HearingStepOk(i, k, h, t, h');
      }
    }
    ActOk(n, t.action, t.now);
    ActOpens(n, t.action, t.now, i, k);
    ActKeepsSlots(n, t.action, t.now);
    InvariantHolds(step, h => HeardAll(i, k, h), states, run, m);
  }

  // ---------- Sending ----------

  /** The payloads of channel `k` among datagrams for `peer`. */
  function Carried(sent: seq<Datagram>, peer: Addr, k: nat): seq<Payload> {
    if sent == [] then []
    else (if IsFor(sent[0], peer, k) then [sent[0].packet.payload] else []) + Carried(sent[1..], peer, k)
  }

  predicate IsFor(d: Datagram, peer: Addr, k: nat) {
    d.to == peer && d.packet.ctrl == DATA && d.packet.channel == k
  }

  lemma {:induction false} CarriedAppend(a: seq<Datagram>, b: seq<Datagram>, peer: Addr, k: nat)
    ensures Carried(a + b, peer, k) == Carried(a, peer, k) + Carried(b, peer, k)
    decreases |a|
  {
    if a == [] {
      assert a + b == b;
    } else {
      assert (a + b)[1..] == a[1..] + b;
      CarriedAppend(a[1..], b, peer, k);
    }
  }

  lemma HeadCarried(chan: Chan, peer: Addr, now: nat, ch: nat, k: nat)
    requires QueueTagged(chan.sendQueue, ch)
    ensures Carried(TransmitHead(chan, peer, now).sent, peer, k)
         == if ch == k && chan.sendQueue != [] && Expired(chan.sendQueue[0].timestamp, now)
            then [chan.sendQueue[0].packet.payload] else []
  {
    var sent := TransmitHead(chan, peer, now).sent;
    if sent != [] {
      assert sent[1..] == [];
    }
  }

  /** What channel `ch` sends of channel `k`. */
  function HeadPayload(con: Conn, ch: nat, now: nat, k: nat): seq<Payload>
    requires con.channels.Some? && ch < |con.channels.value|
  {
    Carried(TransmitHead(con.channels.value[ch], con.peer, now).sent, con.peer, k)
  }

  /** And each of its channels. */
  function HeadPayloads(con: Conn, now: nat, k: nat): (r: seq<seq<Payload>>)
    requires con.channels.Some?
    ensures |r| == |con.channels.value|
  {
    seq(|con.channels.value|, ch requires 0 <= ch < |con.channels.value| => HeadPayload(con, ch, now, k))
  }

  function Flat<T>(parts: seq<seq<T>>, from: nat): seq<T>
    requires from <= |parts|
    decreases |parts| - from
  {
    if from == |parts| then [] else parts[from] + Flat(parts, from + 1)
  }

  lemma {:induction false} FlatOne<T>(parts: seq<seq<T>>, from: nat, k: nat)
    requires from <= |parts| && k < |parts| && forall j :: 0 <= j < |parts| && j != k ==> parts[j] == []
    ensures Flat(parts, from) == if from <= k then parts[k] else []
    decreases |parts| - from
  {
    if from < |parts| {
      FlatOne(parts, from + 1, k);
    }
  }

  lemma {:induction false} HeadsCarried(con: Conn, ch: nat, now: nat, k: nat)
    requires con.channels.Some? && ch <= |con.channels.value|
    ensures Carried(HeadsFrom(con, ch, now), con.peer, k) == Flat(HeadPayloads(con, now, k), ch)
    decreases |con.channels.value| - ch
  {
    if ch < |con.channels.value| {
      HeadsCarried(con, ch + 1, now, k);
      CarriedAppend(TransmitHead(con.channels.value[ch], con.peer, now).sent, HeadsFrom(con, ch + 1, now), con.peer, k);
    }
  }

  lemma OtherHeadPayload(con: Conn, ch: nat, now: nat, k: nat)
    requires con.channels.Some? && ch < |con.channels.value| && QueueTagged(con.channels.value[ch].sendQueue, ch)
    ensures ch != k ==> HeadPayload(con, ch, now, k) == []
  {
    HeadCarried(con.channels.value[ch], con.peer, now, ch, k);
  }

  /** Every queue holds packets of its own channel. */
  ghost predicate AllTagged(con: Conn) {
    con.channels.Some? ==>
      forall j :: 0 <= j < |con.channels.value| ==> QueueTagged(con.channels.value[j].sendQueue, j)
  }

  /** Only channel `k` sends anything of channel `k`. */
  lemma OnlyItsHead(con: Conn, now: nat, k: nat)
    requires con.channels.Some? && k < |con.channels.value| && AllTagged(con)
    ensures Flat(HeadPayloads(con, now, k), 0) == HeadPayload(con, k, now, k)
  {
    var parts := HeadPayloads(con, now, k);
    forall j | 0 <= j < |parts| && j != k ensures parts[j] == [] {
      OtherHeadPayload(con, j, now, k);
    }
    FlatOne(parts, 0, k);
  }

  lemma PingCarriesNothing(con: Conn, now: nat, reliable: seq<bool>, peer: Addr, k: nat)
    ensures Carried(KeepaliveEffect(con, now, reliable).sent, peer, k) == []
  {
    var sent := KeepaliveEffect(con, now, reliable).sent;
    if sent != [] {
      assert sent[1..] == [];
    }
  }

  /** The timers of an established slot send, of channel `k`, its head if it is due, to the peer. */
  lemma TickCarries(con: Conn, now: nat, reliable: seq<bool>, k: nat)
    requires con.state.Established? && ConnOk(con, reliable) && k < |reliable| && AllTagged(con)
    ensures var queue := con.channels.value[k].sendQueue;
            Carried(TimerEffect(con, now, reliable).sent, con.peer, k) ==
              if queue != [] && Expired(queue[0].timestamp, now) then [queue[0].packet.payload] else []
  {
    TransmitByChannels(con, 0, now, con);
    var transmitted := TransmitFrom(con, 0, now);
    CarriedAppend(transmitted.sent, KeepaliveEffect(transmitted.con, now, reliable).sent, con.peer, k);
    PingCarriesNothing(transmitted.con, now, reliable, con.peer, k);
    HeadsCarried(con, 0, now, k);
    OnlyItsHead(con, now, k);
    HeadCarried(con.channels.value[k], con.peer, now, k, k);
  }

  /** Nobody acknowledges an unreliable channel. */
  predicate Acknowledges(c: Ctx, a: Action, i: nat, k: nat)
    requires Up(c, i, k)
  {
    a.Recv? && a.packet.ctrl == DATA_ACK && a.packet.channel == k && a.packet.connId == c.conns[i].connId
  }

  /** The payloads queued on channel `k` of slot `i` since it was established, and those sent to its peer. */
  datatype Emitting = Emitting(sending: Sending, emitted: seq<Payload>)

  ghost predicate EmittingStep(i: nat, k: nat, e: Emitting, t: Timed, e': Emitting) {
    var c, c' := e.sending.node.ctx, e'.sending.node.ctx;
    && SendingStep(i, k, e.sending, t, e'.sending) && (Up(c, i, k) ==> !Acknowledges(c, t.action, i, k))
    && e'.emitted == if Up(c, i, k) then e.emitted + Carried(SlotSent(c, t.action, t.now, i), c.conns[i].peer, k) else []
  }

  function Queued(queue: seq<Entry>): (r: seq<Payload>)
    ensures |r| == |queue|
  {
    seq(|queue|, j requires 0 <= j < |queue| => queue[j].packet.payload)
  }

  ghost predicate Emitted(i: nat, k: nat, e: Emitting) {
    var c := e.sending.node.ctx;
    && CtxOk(c) && Tagged(c)
    && (Up(c, i, k) && !c.reliable[k] ==> e.emitted + Queued(ChanAt(c, i, k).sendQueue) == e.sending.log)
  }

  lemma QueuedSnoc(queue: seq<Entry>, e: Entry)
    ensures Queued(queue + [e]) == Queued(queue) + [e.packet.payload]
  {
  }

  lemma QueuedRest(queue: seq<Entry>)
    requires queue != []
    ensures Queued(queue) == [queue[0].packet.payload] + Queued(queue[1..])
  {
  }

  /** What an unreliable channel sends is what leaves its queue. */
  lemma MoveEmits(chan: Chan, peer: Addr, after: Chan, m: Move, sent: seq<Payload>, data: Payload)
    requires Moved(chan, peer, after, m) && !chan.reliable && !m.Acked?
    requires m.Sent? ==> m.entry.packet.payload == data
    requires sent == if m.Ticked? && chan.sendQueue != [] && Expired(chan.sendQueue[0].timestamp, m.now)
                     then [chan.sendQueue[0].packet.payload] else []
    ensures sent + Queued(after.sendQueue) == if m.Sent? then Queued(chan.sendQueue) + [data] else Queued(chan.sendQueue)
  {
    match m
    case Sent(e) => QueuedSnoc(chan.sendQueue, e);
    case Ticked(_) => if chan.sendQueue != [] { QueuedRest(chan.sendQueue); }
    case _ =>
  }

  lemma StaysEmitted(i: nat, k: nat, e: Emitting, t: Timed, e': Emitting)
    requires EmittingStep(i, k, e, t, e') && Emitted(i, k, e)
    requires Up(e.sending.node.ctx, i, k) && Up(e'.sending.node.ctx, i, k) && !e.sending.node.ctx.reliable[k]
    ensures e'.emitted + Queued(ChanAt(e'.sending.node.ctx, i, k).sendQueue) == e'.sending.log
  {
    var c, c', a := e.sending.node.ctx, e'.sending.node.ctx, t.action;
    assert ConnOk(c.conns[i], c.reliable) && ChanOk(ChanAt(c, i, k), c.reliable[k]);
    var chan, after := ChanAt(c, i, k), ChanAt(c', i, k);
    var m := ActStays(e.sending.node, a, t.now, i, k);
    LoggedIffSent(e.sending, a, t.now, i, k, c', m);
    var sent := Carried(SlotSent(c, a, t.now, i), c.conns[i].peer, k);
    if a.Timers? {
      forall j | 0 <= j < |c.reliable| ensures QueueTagged(c.conns[i].channels.value[j].sendQueue, j) {
        assert Up(c, i, j);
      }
      TickCarries(c.conns[i], t.now, c.reliable, k);
    }
    var data := if m.Sent? then a.data else [];
    MoveEmits(chan, c.conns[i].peer, after, m, sent, data);
    AppendAssociates(e.emitted, sent, Queued(after.sendQueue));
    AppendAssociates(e.emitted, Queued(chan.sendQueue), [data]);
  }

  lemma EmittingStepOk(i: nat, k: nat, e: Emitting, t: Timed, e': Emitting)
    requires EmittingStep(i, k, e, t, e') && Emitted(i, k, e)
    ensures Emitted(i, k, e')
  {
    var n, n' := e.sending.node, e'.sending.node;
    ActOk(n, t.action, t.now);
    ActTagged(n, t.action, t.now);
    ActKeepsSlots(n, t.action, t.now);
    if Up(n'.ctx, i, k) && !n'.ctx.reliable[k] {
      if n.ctx.conns[i].state.Established? {
        assert ConnOk(n.ctx.conns[i], n.ctx.reliable);
        StaysEmitted(i, k, e, t, e');
      } else {
        ActOpens(n, t.action, t.now, i, k);
      }
    }
  }

  /**
   In every run of a context, on every unreliable channel of every established slot, any number of times: the
   payloads sent to the peer, followed by those still queued, are the payloads queued since the slot was
   established. So each goes out exactly once and in order.
   */
  lemma SentOnceInOrder(states: seq<Emitting>, run: seq<Timed>, slots: nat, iss: U32, server: Addr, i: nat, k: nat, m: nat)
    requires IsRun((e, t, e') => EmittingStep(i, k, e, t, e'), states, run) && m < |states|
    requires var c := states[0].sending.node.ctx; c == Created(slots, c.reliable, c.eventCapacity, iss, server)
    requires slots >= 1 && 1 <= |states[0].sending.node.ctx.reliable| <= 255
    requires Up(states[m].sending.node.ctx, i, k) && !states[m].sending.node.ctx.reliable[k]
    ensures states[m].emitted + Queued(ChanAt(states[m].sending.node.ctx, i, k).sendQueue) == states[m].sending.log
  {
    var step := (e: Emitting, t: Timed, e': Emitting) => EmittingStep(i, k, e, t, e');
    assert Preserves(step, e => Emitted(i, k, e)) by {
      forall e: Emitting, t: Timed, e': Emitting | step(e, t, e') && Emitted(i, k, e) ensures Emitted(i, k, e') {
        EmittingStepOk(i, k, e, t, e');
      }
    }
    InvariantHolds(step, e => Emitted(i, k, e), states, run, m);
  }

  // ---------- Nothing is invented ----------

  /** What carries a payload of channel `k` was queued by the sender, and so was what the receiver took. */
  ghost predicate Genuine(snd: Node, rcv: Node, data: set<Packet>, k: nat) {
    && k < |snd.books| && k < |rcv.books|
    && (forall q :: q in data && q.ctrl == DATA && q.channel == k ==> q.payload in snd.books[k].sent)
    && (forall j :: 0 <= j < |rcv.books[k].accepted| ==> rcv.books[k].accepted[j] in snd.books[k].sent)
  }

  lemma SenderStaysGenuine(snd: Node, rcv: Node, data: set<Packet>, k: nat, a: Action, now: nat)
    requires NodeInv(snd) && ActionOk(snd, a) && Genuine(snd, rcv, data, k)
    ensures Genuine(Act(snd, a, now).0, rcv, data + Packets(Act(snd, a, now).1), k)
  {
    var (snd', sent) := Act(snd, a, now);
    ActBookStep(snd, a, now, k);
    forall q | q in data + Packets(sent) && q.ctrl == DATA && q.channel == k ensures q.payload in snd'.books[k].sent {
      if q in Packets(sent) {
        var d :| d in sent && d.packet == q;
        ActSendStep(snd, a, now, d);
      }
    }
  }

  lemma ReceiverStaysGenuine(snd: Node, rcv: Node, data: set<Packet>, k: nat, a: Action, now: nat)
    requires NodeInv(rcv) && ActionOk(rcv, a) && Genuine(snd, rcv, data, k)
    requires a.Recv? ==> a.packet in data
    ensures Genuine(snd, Act(rcv, a, now).0, data, k)
  {
    ActBookStep(rcv, a, now, k);
  }

  lemma StepStaysGenuine(s: Sys, st: Step, k: nat)
    requires SysInv(s) && Enabled(s, st)
    requires Genuine(s.client, s.server, s.toServer, k) && Genuine(s.server, s.client, s.toClient, k)
    ensures Genuine(Next(s, st).client, Next(s, st).server, Next(s, st).toServer, k)
    ensures Genuine(Next(s, st).server, Next(s, st).client, Next(s, st).toClient, k)
  {
    match st
    case AtClient(a) =>
      SenderStaysGenuine(s.client, s.server, s.toServer, k, a, s.now);
      ReceiverStaysGenuine(s.server, s.client, s.toClient, k, a, s.now);
    case AtServer(a) =>
      SenderStaysGenuine(s.server, s.client, s.toClient, k, a, s.now);
      ReceiverStaysGenuine(s.client, s.server, s.toServer, k, a, s.now);
    case Wait(_) =>
  }

  ghost predicate GenuineBothWays(s: Sys, k: nat) {
    Genuine(s.client, s.server, s.toServer, k) && Genuine(s.server, s.client, s.toClient, k)
  }

  lemma {:induction false} RunStaysGenuine(s: Sys, steps: seq<Step>, k: nat)
    requires SysInv(s) && Possible(s, steps) && Once(Final(s, steps)) && GenuineBothWays(s, k)
    ensures GenuineBothWays(Final(s, steps), k)
    decreases |steps|
  {
    if steps != [] {
      EstablishedOnlyGrows(Next(s, steps[0]), steps[1..]);
      StepKeepsInv(s, steps[0]);
      StepStaysGenuine(s, steps[0], k);
      RunStaysGenuine(Next(s, steps[0]), steps[1..], k);
    }
  }

  /**
   In every run of a session, on every channel, reliable or not, and with no condition on counters: each payload
   an end accepted was queued by the other end on the same channel.
   */
  lemma NothingInvented(start: Sys, run: seq<Step>, k: nat)
    requires Init(start) && Possible(start, run) && Once(Final(start, run))
    requires k < |start.client.books| && k < |start.server.books|
    ensures var end := Final(start, run);
            && k < |end.client.books| && k < |end.server.books|
            && (forall x :: x in end.server.books[k].accepted ==> x in end.client.books[k].sent)
            && (forall x :: x in end.client.books[k].accepted ==> x in end.server.books[k].sent)
  {
    InitInv(start);
    RunStaysGenuine(start, run, k);
  }
}
