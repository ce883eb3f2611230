/**
 A client, a server and the network between them.

 The network is the set of all packets ever sent in each direction. A delivery picks any of them and
 leaves it in the set: packets can be lost, duplicated, delayed and reordered, and can arrive from any
 source address. Every run starts from two contexts as they are created, with nothing sent.

 The theorems are about runs in which each end enters the ESTABLISHED state at most once.
 */
module Session {
  import opened Wrappers
  import opened Protocol
  import opened Endpoint
  import opened Node
  import opened NodeSteps

  datatype Sys = Sys(client: Node, server: Node, toServer: set<Packet>, toClient: set<Packet>, now: nat)

  datatype Step = AtClient(action: Action) | AtServer(action: Action) | Wait(ms: nat)

  /** A received packet has been sent before; only the client connects. */
  ghost predicate Enabled(s: Sys, st: Step) {
    match st
    case AtClient(a) =>
      && CtxOk(s.client.ctx) && ActionOk(s.client, a)
      && (a.Recv? ==> a.packet in s.toClient && a.from != NO_ADDR)
    case AtServer(a) =>
      && CtxOk(s.server.ctx) && ActionOk(s.server, a)
      && (a.Recv? ==> a.packet in s.toServer && a.from != NO_ADDR)
      && !a.ConnectTo?
    case Wait(_) => true
  }

  ghost function Packets(sent: seq<Datagram>): set<Packet> {
    set d | d in sent :: d.packet
  }

  ghost function Next(s: Sys, st: Step): Sys
    requires Enabled(s, st)
  {
    match st
    case AtClient(a) =>
      var (n, sent) := Act(s.client, a, s.now);
      s.(client := n, toServer := s.toServer + Packets(sent))
    case AtServer(a) =>
      var (n, sent) := Act(s.server, a, s.now);
      s.(server := n, toClient := s.toClient + Packets(sent))
    case Wait(ms) => s.(now := s.now + ms)
  }

  /** A context as it is created: every slot zeroed. */
  ghost predicate FreshConn(con: Conn) {
    con.state.Closed? && con.peer == NO_ADDR && con.channels.None?
  }

  ghost predicate FreshNode(n: Node) {
    && CtxOk(n.ctx)
    && (forall i :: 0 <= i < |n.ctx.conns| ==> FreshConn(n.ctx.conns[i]))
    && n.established == 0 && n.slot == 0
    && n.books == seq(|n.ctx.reliable|, i => EMPTY_BOOK)
  }

  ghost predicate Init(s: Sys) {
    && FreshNode(s.client) && FreshNode(s.server)
    && |s.client.ctx.conns| == 1
    && s.toServer == {} && s.toClient == {}
    && s.now > 0
  }

  /** A run: the steps taken, each enabled when taken. */
  ghost predicate Possible(s: Sys, steps: seq<Step>)
    decreases |steps|
  {
    steps == [] || (Enabled(s, steps[0]) && Possible(Next(s, steps[0]), steps[1..]))
  }

  ghost function Final(s: Sys, steps: seq<Step>): Sys
    requires Possible(s, steps)
    decreases |steps|
  {
    if steps == [] then s else Final(Next(s, steps[0]), steps[1..])
  }

  lemma FirstThen(s: Sys, st: Step, s1: Sys, rest: seq<Step>)
    requires Enabled(s, st) && s1 == Next(s, st) && Possible(s1, rest)
    ensures Possible(s, [st] + rest) && Final(s, [st] + rest) == Final(s1, rest)
  {
    assert ([st] + rest)[1..] == rest;
  }

  lemma {:induction false} PossibleAppend(s: Sys, a: seq<Step>, b: seq<Step>)
    requires Possible(s, a) && Possible(Final(s, a), b)
    ensures Possible(s, a + b) && Final(s, a + b) == Final(Final(s, a), b)
    decreases |a|
  {
    if a == [] {
      assert a + b == b;
    } else {
      var s1 := Next(s, a[0]);
      PossibleAppend(s1, a[1..], b);
      FirstThen(s, a[0], s1, a[1..] + b);
      assert a + b == [a[0]] + (a[1..] + b);
    }
  }

  // ---------- One direction of one channel ----------

  /** Reliable at both ends. */
  ghost predicate SharedChannel(snd: Node, rcv: Node, k: nat) {
    && k < |snd.books| && k < |snd.ctx.reliable| && snd.ctx.reliable[k]
    && k < |rcv.books| && k < |rcv.ctx.reliable| && rcv.ctx.reliable[k]
  }

  /** How far ahead of the sender's first number the receiver started. */
  ghost function Skip(snd: Node, rcv: Node): int {
    if rcv.established >= 1 then rcv.ack0 - snd.seq0 else 0
  }

  /** The receiver did not start behind the sender, and the counter does not wrap. */
  ghost predicate Matched(snd: Node, rcv: Node, k: nat)
    requires k < |snd.books|
  {
    Skip(snd, rcv) >= 0 && snd.seq0 + |snd.books[k].sent| < MODULUS
  }

  function Dropped<T>(s: seq<T>, n: nat): seq<T> {
    if n <= |s| then s[n..] else []
  }

  /**
   The invariant of the protocol, for a receiver that started `d` ahead. What was accepted is what was
   sent first after the `d` skipped; the send queue starts at the last accepted packet or right after it;
   every DATA packet ever sent carries its own payload and is not ahead of the send queue; every
   acknowledgement names an accepted or a skipped packet.
   */
  ghost predicate Link(snd: Node, rcv: Node, k: nat, data: set<Packet>, acks: set<Packet>)
    requires k < |snd.books| && k < |rcv.books| && Skip(snd, rcv) >= 0
  {
    var out, in_, d := snd.books[k], rcv.books[k], Skip(snd, rcv);
    && in_.accepted <= Dropped(out.sent, d)
    && out.base <= d + |in_.accepted|
    && (in_.accepted != [] ==> d + |in_.accepted| <= out.base + 1)
    && (forall q :: q in data && q.ctrl == DATA && q.channel == k ==> IsSent(q, snd, k))
    && (forall q :: q in acks && q.ctrl == DATA_ACK && q.channel == k
                    ==> snd.seq0 <= q.ackNo < snd.seq0 + d + |in_.accepted|)
  }

  ghost predicate IsSent(q: Packet, snd: Node, k: nat)
    requires k < |snd.books|
  {
    && snd.established >= 1
    && snd.seq0 <= q.seqNo <= snd.seq0 + snd.books[k].base
    && q.connId == snd.id
    && Carries(q, k, snd.books[k], snd.id, snd.seq0, q.seqNo - snd.seq0)
  }

  ghost predicate LinkInv(snd: Node, rcv: Node, k: nat, data: set<Packet>, acks: set<Packet>) {
    SharedChannel(snd, rcv, k) && Matched(snd, rcv, k) ==> Link(snd, rcv, k, data, acks)
  }

  lemma SentBySender(snd: Node, a: Action, now: nat, k: nat, d: Datagram)
    requires NodeInv(snd) && ActionOk(snd, a) && snd.established == 1 && Act(snd, a, now).0.established == 1
    requires k < |snd.books| && snd.seq0 + |snd.books[k].sent| < MODULUS
    requires d in Act(snd, a, now).1 && d.packet.ctrl == DATA && d.packet.channel == k
    ensures IsSent(d.packet, snd, k)
  {
    ActSendStep(snd, a, now, d);
  }

  lemma IsSentKept(q: Packet, snd: Node, snd': Node, k: nat)
    requires k < |snd.books| && k < |snd'.books| && IsSent(q, snd, k)
    requires snd'.established >= 1 && snd'.id == snd.id && snd'.seq0 == snd.seq0
    requires snd.books[k].sent <= snd'.books[k].sent && snd.books[k].base <= snd'.books[k].base
    ensures IsSent(q, snd', k)
  {
  }

  /** What one action does to the sender's record. */
  lemma SenderBook(snd: Node, a: Action, now: nat, rcv: Node, k: nat, data: set<Packet>, acks: set<Packet>)
    requires NodeInv(snd) && ActionOk(snd, a) && snd.established == 1
    requires a.Recv? ==> a.packet in acks
    requires SharedChannel(snd, rcv, k) && Skip(snd, rcv) >= 0 && Link(snd, rcv, k, data, acks)
    requires snd.seq0 + |snd.books[k].sent| < MODULUS
    ensures var b, b' := snd.books[k], Act(snd, a, now).0.books[k];
            && b.sent <= b'.sent && b.base <= b'.base
            && b'.base <= Skip(snd, rcv) + |rcv.books[k].accepted|
  {
    ActBookStep(snd, a, now, k);
    if Act(snd, a, now).0.books[k].base != snd.books[k].base {
      DequeuedWasAccepted(snd, rcv, a, k, data, acks);
    }
  }

  /** A reliable send queue loses its head only after the head was accepted, or skipped from the start. */
  lemma DequeuedWasAccepted(snd: Node, rcv: Node, a: Action, k: nat, data: set<Packet>, acks: set<Packet>)
    requires SharedChannel(snd, rcv, k) && Skip(snd, rcv) >= 0 && Link(snd, rcv, k, data, acks)
    requires Dequeues(snd, a, snd.books[k], k) && a.packet in acks
    requires snd.seq0 + |snd.books[k].sent| < MODULUS
    ensures snd.books[k].base < Skip(snd, rcv) + |rcv.books[k].accepted|
  {
  }

  /** The sender acts: it may have received any packet of `acks`. */
  lemma SenderKeepsLink(snd: Node, a: Action, now: nat, rcv: Node, k: nat, data: set<Packet>, acks: set<Packet>)
    requires NodeInv(snd) && ActionOk(snd, a) && snd.established == 1 && Act(snd, a, now).0.established == 1
    requires a.Recv? ==> a.packet in acks
    requires SharedChannel(snd, rcv, k) && Skip(snd, rcv) >= 0 && Matched(Act(snd, a, now).0, rcv, k)
    requires snd.seq0 + |snd.books[k].sent| < MODULUS ==> Link(snd, rcv, k, data, acks)
    ensures Link(Act(snd, a, now).0, rcv, k, data + Packets(Act(snd, a, now).1), acks)
  {
    var (snd', sent) := Act(snd, a, now);
    ActFrame(snd, a, now);
    SentOnlyGrows(snd, a, now, k);
    SenderBook(snd, a, now, rcv, k, data, acks);
    forall q | q in data + Packets(sent) && q.ctrl == DATA && q.channel == k
      ensures IsSent(q, snd', k)
    {
      if q !in data {
        var d :| d in sent && d.packet == q;
        SentBySender(snd, a, now, k, d);
      }
      IsSentKept(q, snd, snd', k);
    }
  }

  lemma SentOnlyGrows(n: Node, a: Action, now: nat, k: nat)
    requires NodeInv(n) && ActionOk(n, a) && k < |n.books|
    ensures n.books[k].sent <= Act(n, a, now).0.books[k].sent
  {
    ActBookStep(n, a, now, k);
  }

  /** What one action does to the receiver's record. */
  lemma ReceiverBook(snd: Node, rcv: Node, a: Action, now: nat, k: nat, data: set<Packet>, acks: set<Packet>)
    requires NodeInv(rcv) && ActionOk(rcv, a) && rcv.established == 1
    requires a.Recv? ==> a.packet in data
    requires SharedChannel(snd, rcv, k) && Matched(snd, rcv, k)
    requires Link(snd, rcv, k, data, acks)
    ensures var b, b' := rcv.books[k], Act(rcv, a, now).0.books[k];
            && b.accepted <= b'.accepted <= Dropped(snd.books[k].sent, Skip(snd, rcv))
            && (b'.accepted != [] ==> Skip(snd, rcv) + |b'.accepted| <= snd.books[k].base + 1)
            && (b'.accepted != b.accepted ==> Accepts(rcv, a, b, b', k))
  {
    ActBookStep(rcv, a, now, k);
    var b' := Act(rcv, a, now).0.books[k];
    if b'.accepted != rcv.books[k].accepted {
      AcceptedIsNext(snd, rcv, a, b', k, data, acks);
    }
  }

  /** The packet a reliable channel accepts carries the next payload the sender queued. */
  lemma AcceptedIsNext(snd: Node, rcv: Node, a: Action, b': Book, k: nat, data: set<Packet>, acks: set<Packet>)
    requires k < |rcv.books| && Accepts(rcv, a, rcv.books[k], b', k) && a.packet in data && rcv.established == 1
    requires SharedChannel(snd, rcv, k) && Matched(snd, rcv, k)
    requires Link(snd, rcv, k, data, acks)
    ensures Skip(snd, rcv) + |rcv.books[k].accepted| == snd.books[k].base < |snd.books[k].sent|
    ensures a.packet.payload == snd.books[k].sent[snd.books[k].base]
    ensures b'.accepted <= Dropped(snd.books[k].sent, Skip(snd, rcv))
  {
    assert IsSent(a.packet, snd, k);
  }

  lemma AckedByReceiver(snd: Node, rcv: Node, a: Action, now: nat, k: nat, data: set<Packet>, acks: set<Packet>, d: Datagram)
    requires NodeInv(rcv) && ActionOk(rcv, a) && rcv.established == 1
    requires a.Recv? ==> a.packet in data
    requires SharedChannel(snd, rcv, k) && Matched(snd, rcv, k)
    requires Link(snd, rcv, k, data, acks)
    requires d in Act(rcv, a, now).1 && d.packet.ctrl == DATA_ACK && d.packet.channel == k
    ensures snd.seq0 <= d.packet.ackNo < snd.seq0 + Skip(snd, rcv) + |Act(rcv, a, now).0.books[k].accepted|
  {
    ActSendStep(rcv, a, now, d);
    ReceiverBook(snd, rcv, a, now, k, data, acks);
    AckNamesAccepted(snd, rcv, a, Act(rcv, a, now).0, d.packet, k, data, acks);
  }

  lemma AckNamesAccepted(snd: Node, rcv: Node, a: Action, rcv': Node, q: Packet, k: nat, data: set<Packet>, acks: set<Packet>)
    requires rcv.established == 1 && SharedChannel(snd, rcv, k) && Matched(snd, rcv, k) && Link(snd, rcv, k, data, acks)
    requires SendsDataAck(rcv, a, rcv', q) && q.channel == k && a.packet in data
    requires k < |rcv'.books|
    requires |rcv'.books[k].accepted| != |rcv.books[k].accepted| ==> Accepts(rcv, a, rcv.books[k], rcv'.books[k], k)
    requires |rcv'.books[k].accepted| >= |rcv.books[k].accepted|
    ensures snd.seq0 <= q.ackNo < snd.seq0 + Skip(snd, rcv) + |rcv'.books[k].accepted|
  {
    assert IsSent(a.packet, snd, k);
  }

  /** The receiver acts: it may have received any packet of `data`. */
  lemma ReceiverKeepsLink(snd: Node, rcv: Node, a: Action, now: nat, k: nat, data: set<Packet>, acks: set<Packet>)
    requires NodeInv(rcv) && ActionOk(rcv, a) && rcv.established == 1 && Act(rcv, a, now).0.established == 1
    requires a.Recv? ==> a.packet in data
    requires SharedChannel(snd, rcv, k) && Matched(snd, rcv, k)
    requires Link(snd, rcv, k, data, acks)
    ensures Skip(snd, Act(rcv, a, now).0) == Skip(snd, rcv)
    ensures Link(snd, Act(rcv, a, now).0, k, data, acks + Packets(Act(rcv, a, now).1))
  {
    var (rcv', sent) := Act(rcv, a, now);
    ActFrame(rcv, a, now);
    ReceiverBook(snd, rcv, a, now, k, data, acks);
    forall q | q in acks + Packets(sent) && q.ctrl == DATA_ACK && q.channel == k
      ensures snd.seq0 <= q.ackNo < snd.seq0 + Skip(snd, rcv) + |rcv'.books[k].accepted|
    {
      if q !in acks {
        var d :| d in sent && d.packet == q;
        AckedByReceiver(snd, rcv, a, now, k, data, acks, d);
      }
    }
  }

  // ---------- The handshake ----------

  /** Every SYN carries the client's first counter; the client never answers a SYN. */
  ghost predicate SynsCarry(s: Sys) {
    forall q :: q in s.toServer ==> q.ctrl != SYN_ACK && (q.ctrl == SYN ==> q.seqNo == s.client.ctx.iss)
  }

  /** Every SYN|ACK carries both first counters; the server never opens. */
  ghost predicate SynAcksCarry(s: Sys) {
    forall q :: q in s.toClient ==>
      q.ctrl != SYN && (q.ctrl == SYN_ACK ==> q.seqNo == s.server.ctx.iss && q.ackNo == s.client.ctx.iss)
  }

  /** Before it connects, nothing has been sent by anyone. */
  ghost predicate ClientConn(s: Sys) {
    && |s.client.ctx.conns| == 1
    && !s.client.ctx.conns[0].state.SynRcvd?
    && (s.client.ctx.conns[0].seqNo == s.client.ctx.iss
        || (s.client.ctx.conns[0].state.Closed? && s.toServer == {} && s.toClient == {}))
  }

  ghost predicate Unused(con: Conn) {
    con.state.Closed? && con.peer == NO_ADDR
  }

  ghost predicate Seeded(con: Conn, serverIss: U32, clientIss: U32) {
    con.peer != NO_ADDR && con.seqNo == serverIss && con.ackNo == clientIss && !con.state.SynSent?
  }

  /** Every slot of the server is unused or holds both first counters. */
  ghost predicate ServerConns(s: Sys) {
    && (forall i :: 0 <= i < |s.server.ctx.conns| ==>
          Unused(s.server.ctx.conns[i]) || Seeded(s.server.ctx.conns[i], s.server.ctx.iss, s.client.ctx.iss))
    && (s.toServer == {} ==>
          s.toClient == {} && forall i :: 0 <= i < |s.server.ctx.conns| ==> s.server.ctx.conns[i].state.Closed?)
  }

  ghost predicate ClientStart(s: Sys) {
    && (s.client.established >= 1 ==> s.client.seq0 == s.client.ctx.iss && s.client.ack0 == s.server.ctx.iss)
    && (s.client.established == 0 ==>
          forall q :: q in s.toServer ==> q.ctrl != DATA && q.ctrl != ACK && q.ctrl != DATA_ACK)
  }

  /** A number the counter of the first channel has had. */
  ghost predicate FromFirstChannel(n: Node, x: U32) {
    && n.books != []
    && (n.seq0 + |n.books[0].sent| < MODULUS ==> n.seq0 <= x <= n.seq0 + |n.books[0].sent|)
  }

  /** Every handshake ACK names the client's connection, and acknowledges the server's first counter. */
  ghost predicate AcksCarry(s: Sys) {
    forall q :: q in s.toServer && q.ctrl == ACK ==>
      && q.connId == s.client.id && (s.server.established == 0 ==> q.ackNo == s.server.ctx.iss)
      && FromFirstChannel(s.client, q.seqNo)
  }

  /** Until the server is established no data has come from it and none has been taken. */
  ghost predicate ServerSilent(s: Sys) {
    s.server.established == 0 ==>
      && (forall q :: q in s.toClient ==> q.ctrl != DATA && q.ctrl != DATA_ACK)
      && (forall q :: q in s.toServer ==> q.ctrl != DATA_ACK)
      && (forall k :: 0 <= k < |s.client.books| ==> Untouched(s.client, k))
  }

  ghost predicate Untouched(n: Node, k: nat)
    requires k < |n.books|
  {
    n.books[k].accepted == [] && (k < |n.ctx.reliable| && n.ctx.reliable[k] ==> n.books[k].base == 0)
  }

  ghost predicate ServerStart(s: Sys) {
    s.server.established >= 1 ==>
      && s.client.established >= 1
      && s.server.id == s.client.id
      && s.server.seq0 == s.server.ctx.iss
      && (s.server.agreed <==> s.server.ack0 == s.client.ctx.iss)
      && FromFirstChannel(s.client, s.server.ack0)
      && (exists q :: q in s.toServer && q.ctrl == ACK && q.seqNo == s.server.ack0)
  }

  ghost predicate SysInv(s: Sys) {
    && NodeInv(s.client) && NodeInv(s.server)
    && SynsCarry(s) && SynAcksCarry(s) && ClientConn(s) && ServerConns(s)
    && ClientStart(s) && AcksCarry(s) && ServerSilent(s) && ServerStart(s)
    && (forall k :: 0 <= k < 256 ==> LinkInv(s.client, s.server, k, s.toServer, s.toClient))
    && (forall k :: 0 <= k < 256 ==> LinkInv(s.server, s.client, k, s.toClient, s.toServer))
  }

  /** A step after which neither end has been established twice. */
  ghost predicate Once(s: Sys) {
    s.client.established <= 1 && s.server.established <= 1
  }

  lemma InitInv(s: Sys)
    requires Init(s)
    ensures SysInv(s)
  {
    FreshNodeInv(s.client);
    FreshNodeInv(s.server);
  }

  lemma FreshNodeInv(n: Node)
    requires FreshNode(n)
    ensures NodeInv(n)
  {
  }

  // ---------- The client acts ----------

  lemma ClientPackets(s: Sys, a: Action, q: Packet)
    requires SysInv(s) && Enabled(s, AtClient(a))
    requires q in Packets(Act(s.client, a, s.now).1)
    ensures SendStep(s.client, a, Act(s.client, a, s.now).0, q)
  {
    var d :| d in Act(s.client, a, s.now).1 && d.packet == q;
    ActSendStep(s.client, a, s.now, d);
  }

  lemma ClientKeepsConn(s: Sys, a: Action)
    requires SysInv(s) && Enabled(s, AtClient(a))
    ensures ClientConn(Next(s, AtClient(a)))
  {
    match a
    case Recv(p, from, sendOk) => ClientRecvConn(s, p, from, sendOk);
    case Timers => ClientTimersConn(s);
    case _ => ClientCallConn(s, a);
  }

  lemma ClientCallConn(s: Sys, a: Action)
    requires SysInv(s) && Enabled(s, AtClient(a)) && !a.Recv? && !a.Timers?
    ensures ClientConn(Next(s, AtClient(a)))
  {
    CallKeepsOpening(s.client, a, s.now);
    NoPackets();
    assert s.toServer + Packets([]) == s.toServer;
  }

  /** A call sends nothing; connecting gives the first counter. */
  lemma CallKeepsOpening(n: Node, a: Action, now: nat)
    requires CtxOk(n.ctx) && ActionOk(n, a) && |n.ctx.conns| == 1 && !a.Recv? && !a.Timers?
    requires !n.ctx.conns[0].state.SynRcvd?
    ensures var (n', sent) := Act(n, a, now);
            && sent == [] && |n'.ctx.conns| == 1 && n'.ctx.iss == n.ctx.iss
            && var con, con' := n.ctx.conns[0], n'.ctx.conns[0];
               && !con'.state.SynRcvd?
               && (con'.seqNo == n.ctx.iss || (con'.seqNo == con.seqNo && (con.state.Closed? ==> con'.state.Closed?)))
  {
  }

  lemma ClientTimersConn(s: Sys)
    requires SysInv(s)
    ensures ClientConn(Next(s, AtClient(Timers)))
  {
    ActFrame(s.client, Timers, s.now);
    TimersFromConn(s.client.ctx, 0, s.now, 0);
    var con := s.client.ctx.conns[0];
    TimerEffectKeeps(con, s.now, s.client.ctx.reliable);
    if con.state.Closed? {
      ClosedIsSilent(s.client.ctx, s.now);
      assert Next(s, AtClient(Timers)).toServer == s.toServer;
    }
  }

  lemma TimerEffectKeeps(con: Conn, now: nat, reliable: seq<bool>)
    requires ConnOk(con, reliable)
    ensures var after := TimerEffect(con, now, reliable).con;
            && after.seqNo == con.seqNo && after.ackNo == con.ackNo && after.peer == con.peer
            && (after.state == con.state || after.state.Closed?)
            && after.connId == con.connId
  {
    if con.state.Established? {
      TransmitFromKeeps(con, 0, now);
    }
  }

  lemma {:induction false} TransmitFromKeeps(con: Conn, ch: nat, now: nat)
    requires con.channels.Some? && ch <= |con.channels.value|
    ensures var after := TransmitFrom(con, ch, now).con;
            && after.seqNo == con.seqNo && after.ackNo == con.ackNo && after.peer == con.peer
            && after.state == con.state && after.connId == con.connId
    decreases |con.channels.value| - ch
  {
    if ch < |con.channels.value| {
      var t := TransmitHead(con.channels.value[ch], con.peer, now);
      TransmitFromKeeps(SetChannel(con, ch, t.chan).(lossCount := con.lossCount + t.losses), ch + 1, now);
    }
  }

  lemma ClosedIsSilent(c: Ctx, now: nat)
    requires CtxOk(c) && forall i :: 0 <= i < |c.conns| ==> c.conns[i].state.Closed?
    ensures TimersFrom(c, 0, now).sent == []
  {
    if TimersFrom(c, 0, now).sent != [] {
      var d := TimersFrom(c, 0, now).sent[0];
      var k := TimersSend(c, 0, now, d);
    }
  }

  lemma ClientRecvConn(s: Sys, p: Packet, from: Addr, sendOk: bool)
    requires SysInv(s) && Enabled(s, AtClient(Recv(p, from, sendOk)))
    ensures ClientConn(Next(s, AtClient(Recv(p, from, sendOk))))
  {
    ReceiveKeepsOpening(s.client.ctx, p, from, s.now, sendOk);
  }

  /** A client's first counter, once given, stays; without a SYN it never becomes SYN_RCVD. */
  lemma ReceiveKeepsOpening(c: Ctx, p: Packet, from: Addr, now: nat, sendOk: bool)
    requires CtxOk(c) && |c.conns| == 1 && p.ctrl != SYN && !c.conns[0].state.SynRcvd?
    ensures var c' := Receive(c, p, from, now, sendOk).ctx;
            && |c'.conns| == 1 && !c'.conns[0].state.SynRcvd? && c'.conns[0].seqNo == c.conns[0].seqNo && c'.iss == c.iss
  {
  }

  lemma ClientKeepsSyns(s: Sys, a: Action)
    requires SysInv(s) && Enabled(s, AtClient(a))
    ensures SynsCarry(Next(s, AtClient(a)))
  {
    var s' := Next(s, AtClient(a));
    ActFrame(s.client, a, s.now);
    forall q | q in s'.toServer
      ensures q.ctrl != SYN_ACK && (q.ctrl == SYN ==> q.seqNo == s.client.ctx.iss)
    {
      if q !in s.toServer {
        ClientPackets(s, a, q);
      }
    }
  }

  /** The client establishes on a SYN|ACK, with the counters it carries. */
  lemma ClientEstablishes(s: Sys, a: Action)
    requires SysInv(s) && Enabled(s, AtClient(a))
    requires Act(s.client, a, s.now).0.established > s.client.established
    ensures a.Recv? && a.packet.ctrl == SYN_ACK
    ensures var n' := Act(s.client, a, s.now).0;
            && n'.seq0 == s.client.ctx.iss && n'.ack0 == s.server.ctx.iss
            && n'.books == s.client.books && n'.ctx.conns[0].connId == n'.id
  {
    if a.packet.ctrl == SYN_ACK {
      SynAckEstablishes(s.client, a.packet, a.from, a.sendOk, s.now);
    } else {
      AckEstablishes(s.client, a.packet, a.from, a.sendOk, s.now);
    }
  }

  lemma SynAckEstablishes(n: Node, p: Packet, from: Addr, sendOk: bool, now: nat)
    requires CtxOk(n.ctx) && p.ctrl == SYN_ACK
    requires ActRecv(n, p, from, sendOk, now).0.established > n.established
    ensures var n' := ActRecv(n, p, from, sendOk, now).0;
            && n'.seq0 == n.ctx.conns[0].seqNo && n'.ack0 == p.seqNo
            && n'.books == n.books && n'.ctx.conns[0].connId == n'.id && n'.slot == 0
  {
  }

  lemma ClientKeepsStart(s: Sys, a: Action)
    requires SysInv(s) && Enabled(s, AtClient(a)) && Once(Next(s, AtClient(a)))
    ensures ClientStart(Next(s, AtClient(a)))
  {
    var s' := Next(s, AtClient(a));
    ActFrame(s.client, a, s.now);
    if s'.client.established > s.client.established {
      ClientEstablishes(s, a);
    } else if s'.client.established == 0 {
      forall q | q in s'.toServer ensures q.ctrl != DATA && q.ctrl != ACK && q.ctrl != DATA_ACK {
        if q !in s.toServer {
          ClientPackets(s, a, q);
        }
      }
    }
  }

  /** The counters of the channels while nothing has been accepted. */
  lemma FirstChannelCounters(n: Node)
    requires NodeInv(n) && n.established == 1 && |n.ctx.conns| == 1
    requires n.ctx.conns[0].state.Established?
    ensures n.ctx.conns[0].connId == n.id
    ensures n.ctx.conns[0].channels.value != []
    ensures n.books[0].accepted == [] ==> n.ctx.conns[0].channels.value[0].ackNo == n.ack0
    ensures FromFirstChannel(n, n.ctx.conns[0].channels.value[0].seqNo)
  {
    assert ChannelMatches(n.ctx.conns[0].channels.value[0], 0, n.books[0], n.id, n.seq0, n.ack0);
  }

  lemma ClientKeepsAcks(s: Sys, a: Action)
    requires SysInv(s) && Enabled(s, AtClient(a)) && Once(Next(s, AtClient(a)))
    requires NodeInv(Next(s, AtClient(a)).client) && ServerSilent(Next(s, AtClient(a)))
    ensures AcksCarry(Next(s, AtClient(a)))
  {
    var s' := Next(s, AtClient(a));
    ActFrame(s.client, a, s.now);
    if s'.client.established > s.client.established {
      ClientEstablishes(s, a);
    }
    forall q | q in s'.toServer && q.ctrl == ACK
      ensures q.connId == s'.client.id && (s'.server.established == 0 ==> q.ackNo == s.server.ctx.iss)
      ensures FromFirstChannel(s'.client, q.seqNo)
    {
      if q in s.toServer {
        SentOnlyGrows(s.client, a, s.now, 0);
      } else {
        ClientPackets(s, a, q);
        FirstChannelCounters(s'.client);
        assert s'.server.established == 0 ==> Untouched(s'.client, 0);
        assert ClientStart(s') by { ClientKeepsStart(s, a); }
      }
    }
  }

  lemma ClientKeepsSilence(s: Sys, a: Action)
    requires SysInv(s) && Enabled(s, AtClient(a))
    ensures ServerSilent(Next(s, AtClient(a)))
  {
    var s' := Next(s, AtClient(a));
    if s.server.established == 0 {
      ActFrame(s.client, a, s.now);
      forall q | q in s'.toServer ensures q.ctrl != DATA_ACK {
        if q !in s.toServer {
          ClientPackets(s, a, q);
        }
      }
      forall k | 0 <= k < |s'.client.books| ensures Untouched(s'.client, k) {
        ActBookStep(s.client, a, s.now, k);
        assert Untouched(s.client, k);
      }
    }
  }

  lemma ClientKeepsServerStart(s: Sys, a: Action)
    requires SysInv(s) && Enabled(s, AtClient(a)) && Once(Next(s, AtClient(a)))
    ensures ServerStart(Next(s, AtClient(a)))
  {
    ActFrame(s.client, a, s.now);
    if s.server.established >= 1 {
      SentOnlyGrows(s.client, a, s.now, 0);
      var q :| q in s.toServer && q.ctrl == ACK && q.seqNo == s.server.ack0;
      assert q in Next(s, AtClient(a)).toServer;
    }
  }

  lemma ClientKeepsServerConns(s: Sys, a: Action)
    requires SysInv(s) && Enabled(s, AtClient(a))
    ensures ServerConns(Next(s, AtClient(a))) && SynAcksCarry(Next(s, AtClient(a)))
  {
    ActFrame(s.client, a, s.now);
  }

  /** Before it is established an end has sent, accepted and acknowledged nothing. */
  lemma NoBooksYet(n: Node, k: nat)
    requires NodeInv(n) && n.established == 0 && k < |n.books|
    ensures n.books[k] == EMPTY_BOOK
  {
  }

  lemma ClientKeepsOutLink(s: Sys, a: Action, k: nat)
    requires SysInv(s) && Enabled(s, AtClient(a)) && Once(Next(s, AtClient(a))) && k < 256
    requires NodeInv(Next(s, AtClient(a)).client)
    requires ClientStart(Next(s, AtClient(a)))
    ensures var s' := Next(s, AtClient(a)); LinkInv(s'.client, s'.server, k, s'.toServer, s'.toClient)
  {
    var s' := Next(s, AtClient(a));
    ActFrame(s.client, a, s.now);
    if SharedChannel(s'.client, s'.server, k) && Matched(s'.client, s'.server, k) {
      if s.client.established == 1 {
        SentOnlyGrows(s.client, a, s.now, k);
        assert LinkInv(s.client, s.server, k, s.toServer, s.toClient);
        SenderKeepsLink(s.client, a, s.now, s.server, k, s.toServer, s.toClient);
      } else {
        assert s.server.established == 0;
        NoBooksYet(s.server, k);
        NoBooksYet(s.client, k);
        NewLink(s, a, k);
      }
    }
  }

  lemma NewLink(s: Sys, a: Action, k: nat)
    requires SysInv(s) && Enabled(s, AtClient(a)) && Once(Next(s, AtClient(a))) && k < 256
    requires s.client.established == 0 && s.server.established == 0
    requires k < |s.client.books| && k < |s.server.books|
    ensures var s' := Next(s, AtClient(a));
            Skip(s'.client, s'.server) == 0 && Link(s'.client, s'.server, k, s'.toServer, s'.toClient)
  {
    var s' := Next(s, AtClient(a));
    ActFrame(s.client, a, s.now);
    ActBookStep(s.client, a, s.now, k);
    NoBooksYet(s.server, k);
    NoBooksYet(s.client, k);
    forall q | q in s'.toServer ensures q.ctrl != DATA {
      if q !in s.toServer {
        ClientPackets(s, a, q);
      }
    }
  }

  lemma ClientKeepsInLink(s: Sys, a: Action, k: nat)
    requires SysInv(s) && Enabled(s, AtClient(a)) && Once(Next(s, AtClient(a))) && k < 256
    requires ServerSilent(Next(s, AtClient(a)))
    ensures var s' := Next(s, AtClient(a)); LinkInv(s'.server, s'.client, k, s'.toClient, s'.toServer)
  {
    var s' := Next(s, AtClient(a));
    ActFrame(s.client, a, s.now);
    if SharedChannel(s'.server, s'.client, k) && Matched(s'.server, s'.client, k) {
      if s.server.established == 0 {
        NoBooksYet(s.server, k);
        assert Untouched(s'.client, k);
      } else {
        assert LinkInv(s.server, s.client, k, s.toClient, s.toServer);
        ReceiverKeepsLink(s.server, s.client, a, s.now, k, s.toClient, s.toServer);
      }
    }
  }

  lemma ClientKeepsInv(s: Sys, a: Action)
    requires SysInv(s) && Enabled(s, AtClient(a)) && Once(Next(s, AtClient(a)))
    ensures SysInv(Next(s, AtClient(a)))
  {
    var s' := Next(s, AtClient(a));
    ActKeepsInv(s.client, a, s.now);
    ClientKeepsConn(s, a);
    ClientKeepsSyns(s, a);
    ClientKeepsStart(s, a);
    ClientKeepsSilence(s, a);
    ClientKeepsAcks(s, a);
    ClientKeepsServerStart(s, a);
    ClientKeepsServerConns(s, a);
    forall k | 0 <= k < 256
      ensures LinkInv(s'.client, s'.server, k, s'.toServer, s'.toClient)
      ensures LinkInv(s'.server, s'.client, k, s'.toClient, s'.toServer)
    {
      ClientKeepsOutLink(s, a, k);
      ClientKeepsInLink(s, a, k);
    }
  }

  // ---------- The server acts ----------

  lemma ServerPackets(s: Sys, a: Action, q: Packet)
    requires SysInv(s) && Enabled(s, AtServer(a))
    requires q in Packets(Act(s.server, a, s.now).1)
    ensures SendStep(s.server, a, Act(s.server, a, s.now).0, q)
  {
    var d :| d in Act(s.server, a, s.now).1 && d.packet == q;
    ActSendStep(s.server, a, s.now, d);
  }

  /** Each slot after a packet: as it was, or still seeded. */
  lemma ServerRecvSeeds(s: Sys, p: Packet, from: Addr, sendOk: bool, i: nat)
    requires SysInv(s) && Enabled(s, AtServer(Recv(p, from, sendOk))) && i < |s.server.ctx.conns|
    ensures var con := Receive(s.server.ctx, p, from, s.now, sendOk).ctx.conns[i];
            Unused(con) || Seeded(con, s.server.ctx.iss, s.client.ctx.iss)
  {
    var c := s.server.ctx;
    assert Unused(c.conns[i]) || Seeded(c.conns[i], c.iss, s.client.ctx.iss);
    if p.ctrl == SYN && p.connId.id == 0xFFFF {
      SynSeeds(c, p, from, s.now, s.client.ctx.iss, i);
    } else if IsAddressed(p) {
      var slot := FindById(c.conns, p.connId);
      if slot == Some(i) {
        AddressedSeeds(c.conns[i], p, from, s.now, sendOk, c.reliable, c.iss, s.client.ctx.iss);
      }
    }
  }

  lemma SynSeeds(c: Ctx, p: Packet, from: Addr, now: nat, clientIss: U32, i: nat)
    requires CtxOk(c) && p.seqNo == clientIss && from != NO_ADDR && i < |c.conns|
    requires Unused(c.conns[i]) || Seeded(c.conns[i], c.iss, clientIss)
    ensures |OnSyn(c, p, from, now).ctx.conns| == |c.conns|
    ensures var con := OnSyn(c, p, from, now).ctx.conns[i]; Unused(con) || Seeded(con, c.iss, clientIss)
  {
  }

  lemma AddressedSeeds(con: Conn, p: Packet, from: Addr, now: nat, sendOk: bool, reliable: seq<bool>,
                       serverIss: U32, clientIss: U32)
    requires ConnOk(con, reliable) && IsAddressed(p) && from != NO_ADDR
    requires Unused(con) || Seeded(con, serverIss, clientIss)
    ensures var after := AddressedEffect(con, p, from, now, sendOk, reliable).con;
            Unused(after) || Seeded(after, serverIss, clientIss)
  {
  }

  lemma ServerKeepsConns(s: Sys, a: Action)
    requires SysInv(s) && Enabled(s, AtServer(a))
    ensures ServerConns(Next(s, AtServer(a)))
  {
    var s' := Next(s, AtServer(a));
    ActFrame(s.server, a, s.now);
    forall i | 0 <= i < |s.server.ctx.conns|
      ensures Unused(s'.server.ctx.conns[i]) || Seeded(s'.server.ctx.conns[i], s.server.ctx.iss, s.client.ctx.iss)
    {
      ServerConnSeeded(s, a, i);
    }
    if s.toServer == {} {
      ServerStaysClosed(s, a);
    }
  }

  lemma ServerConnSeeded(s: Sys, a: Action, i: nat)
    requires SysInv(s) && Enabled(s, AtServer(a)) && i < |s.server.ctx.conns|
    ensures |Act(s.server, a, s.now).0.ctx.conns| == |s.server.ctx.conns|
    ensures var con := Act(s.server, a, s.now).0.ctx.conns[i];
            Unused(con) || Seeded(con, s.server.ctx.iss, s.client.ctx.iss)
  {
    ActFrame(s.server, a, s.now);
    assert Unused(s.server.ctx.conns[i]) || Seeded(s.server.ctx.conns[i], s.server.ctx.iss, s.client.ctx.iss);
    match a
    case Recv(p, from, sendOk) => ServerRecvSeeds(s, p, from, sendOk, i);
    case Timers =>
      TimersFromConn(s.server.ctx, 0, s.now, i);
      TimerEffectKeeps(s.server.ctx.conns[i], s.now, s.server.ctx.reliable);
    case _ => CallSeeds(s.server, a, s.now, s.client.ctx.iss, i);
  }

  lemma CallSeeds(n: Node, a: Action, now: nat, clientIss: U32, i: nat)
    requires CtxOk(n.ctx) && ActionOk(n, a) && !a.Recv? && !a.Timers? && !a.ConnectTo? && i < |n.ctx.conns|
    requires Unused(n.ctx.conns[i]) || Seeded(n.ctx.conns[i], n.ctx.iss, clientIss)
    ensures |Act(n, a, now).0.ctx.conns| == |n.ctx.conns|
    ensures var con := Act(n, a, now).0.ctx.conns[i]; Unused(con) || Seeded(con, n.ctx.iss, clientIss)
  {
  }

  lemma ServerStaysClosed(s: Sys, a: Action)
    requires SysInv(s) && Enabled(s, AtServer(a)) && s.toServer == {}
    ensures Next(s, AtServer(a)).toClient == {}
    ensures forall i :: 0 <= i < |s.server.ctx.conns| && i < |Next(s, AtServer(a)).server.ctx.conns|
              ==> Next(s, AtServer(a)).server.ctx.conns[i].state.Closed?
  {
    var s' := Next(s, AtServer(a));
    ActFrame(s.server, a, s.now);
    NoPackets();
    match a
    case Timers =>
      ClosedIsSilent(s.server.ctx, s.now);
      forall i | 0 <= i < |s.server.ctx.conns| ensures s'.server.ctx.conns[i].state.Closed? {
        TimersFromConn(s.server.ctx, 0, s.now, i);
      }
    case _ =>
  }

  lemma NoPackets()
    ensures Packets([]) == {}
  {
  }

  lemma ServerKeepsSynAcks(s: Sys, a: Action)
    requires SysInv(s) && Enabled(s, AtServer(a))
    ensures SynAcksCarry(Next(s, AtServer(a)))
  {
    var s' := Next(s, AtServer(a));
    ActFrame(s.server, a, s.now);
    forall q | q in s'.toClient
      ensures q.ctrl != SYN && (q.ctrl == SYN_ACK ==> q.seqNo == s.server.ctx.iss && q.ackNo == s.client.ctx.iss)
    {
      if q !in s.toClient {
        ServerPackets(s, a, q);
        ServerNeverOpens(s, a, q);
      }
    }
  }

  lemma ServerNeverOpens(s: Sys, a: Action, q: Packet)
    requires SysInv(s) && Enabled(s, AtServer(a))
    ensures !SendsSyn(s.server, a, q)
  {
    forall i | 0 <= i < |s.server.ctx.conns| ensures !s.server.ctx.conns[i].state.SynSent? {
      assert Unused(s.server.ctx.conns[i]) || Seeded(s.server.ctx.conns[i], s.server.ctx.iss, s.client.ctx.iss);
    }
  }

  /** The server establishes on an ACK, on the slot it names, with the counter it carries. */
  lemma ServerEstablishes(s: Sys, a: Action)
    requires SysInv(s) && Enabled(s, AtServer(a))
    requires Act(s.server, a, s.now).0.established > s.server.established
    ensures a.Recv? && a.packet.ctrl == ACK && a.packet in s.toServer
    ensures var n' := Act(s.server, a, s.now).0;
            && n'.id == a.packet.connId
            && n'.seq0 == s.server.ctx.iss && n'.ack0 == a.packet.seqNo
            && n'.books == s.server.books
            && (n'.agreed <==> a.packet.ackNo == s.server.ctx.iss && a.packet.seqNo == s.client.ctx.iss)
  {
    assert a.packet.ctrl != SYN_ACK;
    AckEstablishes(s.server, a.packet, a.from, a.sendOk, s.now);
    var slot := FindById(s.server.ctx.conns, a.packet.connId);
    var con := s.server.ctx.conns[slot.value];
    assert Unused(con) || Seeded(con, s.server.ctx.iss, s.client.ctx.iss);
  }

  lemma AckEstablishes(n: Node, p: Packet, from: Addr, sendOk: bool, now: nat)
    requires CtxOk(n.ctx) && p.ctrl != SYN_ACK
    requires ActRecv(n, p, from, sendOk, now).0.established > n.established
    ensures p.ctrl == ACK
    ensures var slot := FindById(n.ctx.conns, p.connId);
            var n' := ActRecv(n, p, from, sendOk, now).0;
            && slot.Some? && n'.slot == slot.value && n.ctx.conns[slot.value].state.SynRcvd?
            && n'.id == p.connId && n'.seq0 == n.ctx.conns[slot.value].seqNo && n'.ack0 == p.seqNo
            && n'.books == n.books
            && n'.agreed == CountersAgree(n.ctx.conns[slot.value], p)
  {
    var con := n.ctx.conns[FindById(n.ctx.conns, p.connId).value];
    AddressedWhenNotEstablished(con, p, from, now, sendOk, n.ctx.reliable);
  }

  lemma ServerKeepsStart(s: Sys, a: Action)
    requires SysInv(s) && Enabled(s, AtServer(a)) && Once(Next(s, AtServer(a)))
    ensures ServerStart(Next(s, AtServer(a)))
  {
    ActFrame(s.server, a, s.now);
    if Act(s.server, a, s.now).0.established > s.server.established {
      ServerEstablishes(s, a);
      assert s.client.established >= 1;
    }
  }

  lemma ServerKeepsSilence(s: Sys, a: Action)
    requires SysInv(s) && Enabled(s, AtServer(a))
    ensures ServerSilent(Next(s, AtServer(a)))
  {
    var s' := Next(s, AtServer(a));
    ActFrame(s.server, a, s.now);
    if s'.server.established == 0 {
      forall q | q in s'.toClient ensures q.ctrl != DATA && q.ctrl != DATA_ACK {
        if q !in s.toClient {
          ServerPackets(s, a, q);
        }
      }
    }
  }

  lemma ServerKeepsClientSide(s: Sys, a: Action)
    requires SysInv(s) && Enabled(s, AtServer(a)) && Once(Next(s, AtServer(a)))
    ensures var s' := Next(s, AtServer(a)); SynsCarry(s') && ClientStart(s') && AcksCarry(s')
  {
    ActFrame(s.server, a, s.now);
  }

  lemma ServerKeepsClientConn(s: Sys, a: Action)
    requires SysInv(s) && Enabled(s, AtServer(a))
    ensures ClientConn(Next(s, AtServer(a)))
  {
    if s.client.ctx.conns[0].seqNo != s.client.ctx.iss {
      ServerStaysClosed(s, a);
    }
  }

  /** The direction to the client: the server is the sender. */
  lemma ServerKeepsOutLink(s: Sys, a: Action, k: nat)
    requires SysInv(s) && Enabled(s, AtServer(a)) && Once(Next(s, AtServer(a))) && k < 256
    ensures var s' := Next(s, AtServer(a)); LinkInv(s'.server, s'.client, k, s'.toClient, s'.toServer)
  {
    var s' := Next(s, AtServer(a));
    ActFrame(s.server, a, s.now);
    if SharedChannel(s'.server, s'.client, k) && Matched(s'.server, s'.client, k) {
      if s.server.established == 1 {
        SentOnlyGrows(s.server, a, s.now, k);
        assert LinkInv(s.server, s.client, k, s.toClient, s.toServer);
        SenderKeepsLink(s.server, a, s.now, s.client, k, s.toClient, s.toServer);
      } else {
        NewServerLink(s, a, k);
      }
    }
  }

  lemma NewServerLink(s: Sys, a: Action, k: nat)
    requires SysInv(s) && Enabled(s, AtServer(a)) && Once(Next(s, AtServer(a)))
    requires s.server.established == 0 && k < |s.client.books| && k < |s.server.books|
    requires Skip(Next(s, AtServer(a)).server, Next(s, AtServer(a)).client) >= 0
    ensures var s' := Next(s, AtServer(a)); Link(s'.server, s'.client, k, s'.toClient, s'.toServer)
  {
    var s' := Next(s, AtServer(a));
    ActFrame(s.server, a, s.now);
    ActBookStep(s.server, a, s.now, k);
    NoBooksYet(s.server, k);
    assert Untouched(s.client, k);
    forall q | q in s'.toClient ensures q.ctrl != DATA {
      if q !in s.toClient {
        ServerPackets(s, a, q);
      }
    }
  }

  /** The direction to the server: the server is the receiver. */
  lemma ServerKeepsInLink(s: Sys, a: Action, k: nat)
    requires SysInv(s) && Enabled(s, AtServer(a)) && Once(Next(s, AtServer(a))) && k < 256
    ensures var s' := Next(s, AtServer(a)); LinkInv(s'.client, s'.server, k, s'.toServer, s'.toClient)
  {
    var s' := Next(s, AtServer(a));
    ActFrame(s.server, a, s.now);
    if SharedChannel(s'.client, s'.server, k) && Matched(s'.client, s'.server, k) {
      assert LinkInv(s.client, s.server, k, s.toServer, s.toClient);
      if s.server.established == 1 {
        ReceiverKeepsLink(s.client, s.server, a, s.now, k, s.toServer, s.toClient);
      } else {
        QuietReceiver(s, a, k);
      }
    }
  }

  lemma QuietReceiver(s: Sys, a: Action, k: nat)
    requires SysInv(s) && Enabled(s, AtServer(a)) && Once(Next(s, AtServer(a)))
    requires s.server.established == 0 && k < |s.client.books| && k < |s.server.books|
    requires Skip(s.client, s.server) >= 0 && Link(s.client, s.server, k, s.toServer, s.toClient)
    requires Skip(Next(s, AtServer(a)).client, Next(s, AtServer(a)).server) >= 0
    ensures var s' := Next(s, AtServer(a)); Link(s'.client, s'.server, k, s'.toServer, s'.toClient)
  {
    var s' := Next(s, AtServer(a));
    ActFrame(s.server, a, s.now);
    ActBookStep(s.server, a, s.now, k);
    forall q | q in s'.toClient ensures q.ctrl != DATA_ACK {
      if q !in s.toClient {
        ServerPackets(s, a, q);
      }
    }
  }

  lemma ServerKeepsInv(s: Sys, a: Action)
    requires SysInv(s) && Enabled(s, AtServer(a)) && Once(Next(s, AtServer(a)))
    ensures SysInv(Next(s, AtServer(a)))
  {
    var s' := Next(s, AtServer(a));
    ActKeepsInv(s.server, a, s.now);
    ServerKeepsClientSide(s, a);
    ServerKeepsClientConn(s, a);
    ServerKeepsConns(s, a);
    ServerKeepsSynAcks(s, a);
    ServerKeepsStart(s, a);
    ServerKeepsSilence(s, a);
    forall k | 0 <= k < 256
      ensures LinkInv(s'.client, s'.server, k, s'.toServer, s'.toClient)
      ensures LinkInv(s'.server, s'.client, k, s'.toClient, s'.toServer)
    {
      ServerKeepsInLink(s, a, k);
      ServerKeepsOutLink(s, a, k);
    }
  }

  // ---------- Runs ----------

  lemma StepKeepsInv(s: Sys, st: Step)
    requires SysInv(s) && Enabled(s, st) && Once(Next(s, st))
    ensures SysInv(Next(s, st))
  {
    match st
    case AtClient(a) => ClientKeepsInv(s, a);
    case AtServer(a) => ServerKeepsInv(s, a);
    case Wait(ms) => WaitKeepsInv(s, ms);
  }

  lemma WaitKeepsInv(s: Sys, ms: nat)
    requires SysInv(s)
    ensures SysInv(Next(s, Wait(ms)))
  {
  }

  lemma {:induction false} EstablishedOnlyGrows(s: Sys, steps: seq<Step>)
    requires Possible(s, steps)
    ensures s.client.established <= Final(s, steps).client.established
    ensures s.server.established <= Final(s, steps).server.established
    decreases |steps|
  {
    if steps != [] {
      match steps[0] {
        case AtClient(a) => ActFrame(s.client, a, s.now);
        case AtServer(a) => ActFrame(s.server, a, s.now);
        case Wait(_) =>
      }
      EstablishedOnlyGrows(Next(s, steps[0]), steps[1..]);
    }
  }

  /** The invariant holds after every run in which neither end was established twice. */
  lemma {:induction false} RunKeepsInv(s: Sys, steps: seq<Step>)
    requires SysInv(s) && Possible(s, steps) && Once(Final(s, steps))
    ensures SysInv(Final(s, steps))
    decreases |steps|
  {
    if steps != [] {
      EstablishedOnlyGrows(Next(s, steps[0]), steps[1..]);
      StepKeepsInv(s, steps[0]);
      RunKeepsInv(Next(s, steps[0]), steps[1..]);
    }
  }

  // ---------- When a handshake ACK was sent ----------

  /** The present counter of the first channel. */
  ghost predicate FirstCounter(n: Node, x: U32) {
    n.books != [] && n.established >= 1 && x == (n.seq0 + |n.books[0].sent|) % MODULUS
  }

  lemma AckCarriesCounter(s: Sys, a: Action, q: Packet)
    requires SysInv(s) && Enabled(s, AtClient(a)) && Once(Next(s, AtClient(a)))
    requires q in Packets(Act(s.client, a, s.now).1) && q.ctrl == ACK
    ensures FirstCounter(Next(s, AtClient(a)).client, q.seqNo)
  {
    ClientPackets(s, a, q);
    StepKeepsInv(s, AtClient(a));
    var n := Next(s, AtClient(a)).client;
    assert ChannelMatches(n.ctx.conns[0].channels.value[0], 0, n.books[0], n.id, n.seq0, n.ack0);
  }

  /** Step `j` of a run sends `q`, with the client's counter of that moment; the rest of the run follows. */
  ghost predicate SentAt(s: Sys, steps: seq<Step>, q: Packet, j: nat) {
    && j < |steps| && steps[j].AtClient? && Possible(s, steps) && Possible(s, steps[..j + 1])
    && var after := Final(s, steps[..j + 1]);
       && q in after.toServer && FirstCounter(after.client, q.seqNo)
       && Possible(after, steps[j + 1..]) && Final(after, steps[j + 1..]) == Final(s, steps)
  }

  lemma SentByFirst(s: Sys, steps: seq<Step>, q: Packet)
    requires Possible(s, steps) && steps != [] && steps[0].AtClient?
    requires q in Next(s, steps[0]).toServer && FirstCounter(Next(s, steps[0]).client, q.seqNo)
    ensures SentAt(s, steps, q, 0)
  {
    FirstThen(s, steps[0], Next(s, steps[0]), []);
    assert steps[..1] == [steps[0]] + [];
  }

  lemma SentLater(s: Sys, steps: seq<Step>, s1: Sys, q: Packet, j: nat)
    requires Possible(s, steps) && steps != [] && s1 == Next(s, steps[0]) && SentAt(s1, steps[1..], q, j)
    ensures SentAt(s, steps, q, j + 1)
  {
    FirstThen(s, steps[0], s1, steps[1..][..j + 1]);
    assert steps[..j + 2] == [steps[0]] + steps[1..][..j + 1];
    assert steps[1..][j + 1..] == steps[j + 2..];
  }

  /** Every handshake ACK was sent by some step of the run, with the counter of that moment. */
  lemma {:induction false} AckSentAt(s: Sys, steps: seq<Step>, q: Packet) returns (j: nat)
    requires SysInv(s) && Possible(s, steps) && Once(Final(s, steps))
    requires q !in s.toServer && q in Final(s, steps).toServer && q.ctrl == ACK
    ensures SentAt(s, steps, q, j)
    decreases |steps|
  {
    var s1 := Next(s, steps[0]);
    EstablishedOnlyGrows(s1, steps[1..]);
    if q in s1.toServer {
      j := 0;
      AckCarriesCounter(s, steps[0].action, q);
      SentByFirst(s, steps, q);
    } else {
      StepKeepsInv(s, steps[0]);
      var i := AckSentAt(s1, steps[1..], q);
      SentLater(s, steps, s1, q, i);
      j := i + 1;
    }
  }

  /** Once the client is established its first number stays. */
  lemma {:induction false} FirstNumberKept(s: Sys, steps: seq<Step>)
    requires SysInv(s) && Possible(s, steps) && Once(Final(s, steps)) && s.client.established == 1
    ensures Final(s, steps).client.seq0 == s.client.seq0
    ensures |Final(s, steps).client.books| == |s.client.books|
    ensures s.client.books != [] ==> s.client.books[0].sent <= Final(s, steps).client.books[0].sent
    decreases |steps|
  {
    if steps != [] {
      var s1 := Next(s, steps[0]);
      EstablishedOnlyGrows(s1, steps[1..]);
      StepKeepsInv(s, steps[0]);
      ClientStaysFirst(s, steps[0]);
      FirstNumberKept(s1, steps[1..]);
    }
  }

  lemma ClientStaysFirst(s: Sys, st: Step)
    requires SysInv(s) && Enabled(s, st) && s.client.established == 1 && Next(s, st).client.established == 1
    ensures var n, n' := s.client, Next(s, st).client;
            && n'.seq0 == n.seq0 && |n'.books| == |n.books|
            && (n.books != [] ==> n.books[0].sent <= n'.books[0].sent)
  {
    if st.AtClient? {
      ActFrame(s.client, st.action, s.now);
      if s.client.books != [] {
        SentOnlyGrows(s.client, st.action, s.now, 0);
        ActBookStep(s.client, st.action, s.now, 0);
      }
    }
  }
}
