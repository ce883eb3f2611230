/**
 Rounds of a session: three ticks that move the head of a reliable send queue to the other end and out of the
 queue. Every tick runs its timers; PINGs are answered, so however long packets take nobody gives up.
 */
module Rounds {
  import opened Wrappers
  import opened Protocol
  import opened Endpoint
  import opened Node
  import opened NodeSteps
  import opened Session
  import opened Turns
  import opened Progress

  // One direction of a session: the sender is in the client's place, the receiver in the server's.

  ghost predicate Linked(p: Sys, k: nat) {
    && k < 256 && Carrying(p.client, k) && Carrying(p.server, k) && p.client.id == p.server.id
    && SharedChannel(p.client, p.server, k) && Matched(p.client, p.server, k) && Skip(p.client, p.server) == 0
    && Link(p.client, p.server, k, p.toServer, p.toClient)
    && ConnOf(p.server).peer != NO_ADDR
  }

  ghost predicate AllDue(queue: seq<Entry>, now: nat) {
    forall j :: 0 <= j < |queue| ==> Expired(queue[j].timestamp, now)
  }

  /** The head is on the network, or will be after the next tick. */
  ghost predicate HeadOut(p: Sys, k: nat)
    requires Linked(p, k)
  {
    var queue := ChanOf(p.client, k).sendQueue;
    queue != [] ==> queue[0].packet in p.toServer || Expired(queue[0].timestamp, p.now)
  }

  /** A round can begin: what is queued is out or due, and who waits for a PONG has sent a PING. */
  ghost predicate Ready(p: Sys, k: nat) {
    && Linked(p, k) && SysPinged(p) && HeadOut(p, k)
    && (ChanOf(p.client, k).sendQueue != [] ==> AllDue(ChanOf(p.client, k).sendQueue[1..], p.now))
  }

  ghost predicate PongKnown(sent: set<Packet>, id: ConnId) {
    exists q :: q in sent && IsPong(q, id)
  }

  /** Nothing accepted has been lost so far, and there is room for everything not yet accepted. */
  ghost predicate EnoughRoom(p: Sys, k: nat)
    requires Linked(p, k)
  {
    var b, waiting := p.server.books[k], |ChanOf(p.server, k).recvQueue|;
    && |b.popped| + waiting == |b.accepted|
    && waiting + |p.client.books[k].sent| - |b.accepted| <= QUEUE_CAPACITY
  }

  ghost function HeadOf(p: Sys, k: nat): Packet
    requires Linked(p, k) && ChanOf(p.client, k).sendQueue != []
  {
    ChanOf(p.client, k).sendQueue[0].packet
  }

  /** The queue holds what is sent and not yet let go of, from the head on. */
  lemma QueueView(n: Node, k: nat)
    requires Carrying(n, k)
    ensures n.ctx.conns[n.slot].channels.Some? && k < |n.ctx.conns[n.slot].channels.value|
    ensures var b, queue := n.books[k], ChanOf(n, k).sendQueue;
            && |queue| == |b.sent| - b.base
            && (queue != [] ==> Carries(queue[0].packet, k, b, n.id, n.seq0, b.base))
  {
    var chan := ChanOf(n, k);
    assert ChannelMatches(chan, k, n.books[k], n.id, n.seq0, n.ack0);
    if chan.sendQueue != [] {
      assert Carries(chan.sendQueue[0].packet, k, n.books[k], n.id, n.seq0, n.books[k].base + 0);
    }
  }

  /** The packet at the head, with the number it has when counters do not wrap. */
  ghost predicate HeadNumbered(q: Packet, k: nat, id: ConnId, number: int) {
    q.ctrl == DATA && q.channel == k && q.connId == id && q.seqNo == number
  }

  lemma CarriedIsNumbered(q: Packet, k: nat, b: Book, id: ConnId, seq0: U32, i: nat)
    requires Carries(q, k, b, id, seq0, i) && seq0 + |b.sent| < MODULUS
    ensures HeadNumbered(q, k, id, seq0 + i)
  {
  }

  lemma NumbersDoNotWrap(p: Sys, k: nat)
    requires Linked(p, k)
    ensures p.client.seq0 + |p.client.books[k].sent| < MODULUS
  {
  }

  lemma SenderView(p: Sys, k: nat)
    requires Linked(p, k)
    ensures var b, queue := p.client.books[k], ChanOf(p.client, k).sendQueue;
            && |queue| == |b.sent| - b.base
            && (queue != [] ==> HeadNumbered(queue[0].packet, k, p.client.id, p.client.seq0 + b.base))
  {
    QueueView(p.client, k);
    NumbersDoNotWrap(p, k);
    if ChanOf(p.client, k).sendQueue != [] {
      var b := p.client.books[k];
      CarriedIsNumbered(HeadOf(p, k), k, b, p.client.id, p.client.seq0, b.base);
    }
  }

  lemma ReceiverView(p: Sys, k: nat)
    requires Linked(p, k)
    ensures ConnOf(p.server).connId == p.server.id
    ensures ChanOf(p.server, k).ackNo == p.client.seq0 + |p.server.books[k].accepted|
  {
    assert ChannelMatches(ChanOf(p.server, k), k, p.server.books[k], p.server.id, p.server.seq0, p.server.ack0);
  }

  /** The window of one: the head is what the receiver expects, or what it took last. */
  lemma HeadIsDue(p: Sys, k: nat)
    requires Linked(p, k) && ChanOf(p.client, k).sendQueue != []
    ensures var q := HeadOf(p, k);
            && q.seqNo <= ChanOf(p.server, k).ackNo <= q.seqNo + 1
            && q.ctrl == DATA && q.channel == k && q.connId == p.server.id
            && q.seqNo < p.client.seq0 + |p.client.books[k].sent|
  {
    SenderView(p, k);
    ReceiverView(p, k);
  }

  // ---------- Time passes ----------

  function Later(p: Sys, lag: nat): Sys {
    p.(now := p.now + lag)
  }

  lemma LaterReady(p: Sys, k: nat, lag: nat)
    requires Ready(p, k)
    ensures Ready(Later(p, lag), k)
    ensures EnoughRoom(p, k) <==> EnoughRoom(Later(p, lag), k)
  {
    assert Linked(Later(p, lag), k);
  }

  // ---------- The sender moves ----------

  /** What every step of the sender leaves alone. */
  ghost predicate SenderFrame(p: Sys, p1: Sys, k: nat)
    requires Linked(p, k)
  {
    && Linked(p1, k) && SysPinged(p1)
    && p1.now == p.now && p1.server == p.server && p1.toClient == p.toClient && p.toServer <= p1.toServer
    && p1.client.books[k].sent == p.client.books[k].sent
  }

  lemma SenderSteps(p: Sys, k: nat, a: Action) returns (p1: Sys)
    requires Ready(p, k) && Enabled(p, AtClient(a)) && (a.Recv? || a.Timers?)
    requires Goes(p.client, Act(p.client, a, p.now).0, k)
    ensures p1 == Next(p, AtClient(a)) && SenderFrame(p, p1, k)
  {
    p1 := Next(p, AtClient(a));
    StepPinged(p, AtClient(a));
    ActBookStep(p.client, a, p.now, k);
    SenderKeepsLink(p.client, a, p.now, p.server, k, p.toServer, p.toClient);
  }

  /** A packet of the keepalive changes nothing of the channel. */
  ghost predicate SenderSame(p: Sys, p1: Sys, k: nat)
    requires Ready(p, k)
  {
    SenderFrame(p, p1, k) && Ready(p1, k) && ChanOf(p1.client, k) == ChanOf(p.client, k)
  }

  lemma SenderHearsPing(p: Sys, k: nat, q: Packet, from: Addr) returns (p1: Sys)
    requires Ready(p, k) && q in p.toClient && q.ctrl == PING && from != NO_ADDR
    ensures Hears(p, true, Mail(q, from), p1) && SenderSame(p, p1, k)
    ensures ConnOf(p1.client) == ConnOf(p.client) && PongFor(q) in p1.toServer
  {
    NodeHearsPing(p.client, q, from, p.now);
    p1 := SenderSteps(p, k, Recv(q, from, true));
    HearsMail(p, true, Mail(q, from), p1);
    assert Datagram(from, PongFor(q)) in [Datagram(from, PongFor(q))];
  }

  lemma SenderHearsPong(p: Sys, k: nat, q: Packet, from: Addr) returns (p1: Sys)
    requires Ready(p, k) && q in p.toClient && IsPong(q, p.client.id) && from != NO_ADDR
    ensures Hears(p, true, Mail(q, from), p1) && SenderSame(p, p1, k)
    ensures ConnOf(p1.client).keepaliveRetry == 0
  {
    NodeHearsPong(p.client, q, from, p.now, k);
    p1 := SenderSteps(p, k, Recv(q, from, true));
    HearsMail(p, true, Mail(q, from), p1);
  }

  /** After the sender's timers the head is on the network, and still at the head. */
  ghost predicate SenderTicked(p: Sys, p1: Sys, k: nat)
    requires Ready(p, k)
  {
    && SenderFrame(p, p1, k) && Ready(p1, k)
    && SameButHead(ChanOf(p.client, k).sendQueue, ChanOf(p1.client, k).sendQueue)
    && (ChanOf(p1.client, k).sendQueue != [] ==> ChanOf(p1.client, k).sendQueue[0].packet in p1.toServer)
  }

  lemma SenderTimers(p: Sys, k: nat) returns (p1: Sys)
    requires Ready(p, k) && KeepsAlive(ConnOf(p.client), p.now)
    ensures TickedTo(p, true, [], p1) && SenderTicked(p, p1, k)
    ensures ConnOf(p1.client).keepaliveRetry <= ConnOf(p.client).keepaliveRetry + 1
  {
    NodeTicks(p.client, p.now, k);
    p1 := SenderSteps(p, k, Timers);
    QuietTick(p, true, p1);
    var queue := ChanOf(p.client, k).sendQueue;
    if queue != [] && Expired(queue[0].timestamp, p.now) {
      NodeSendsHead(p.client, p.now, k);
    }
    assert ChanOk(ChanOf(p.client, k), p.client.ctx.reliable[k]);
  }

  /** The head has been accepted and leaves the queue. */
  ghost predicate Shrunk(p: Sys, p1: Sys, k: nat)
    requires Ready(p, k) && ChanOf(p.client, k).sendQueue != []
  {
    SenderFrame(p, p1, k) && Ready(p1, k) && ChanOf(p1.client, k).sendQueue == ChanOf(p.client, k).sendQueue[1..]
  }

  lemma RestIsDue(queue: seq<Entry>, now: nat)
    requires queue != [] && AllDue(queue[1..], now)
    ensures queue[1..] != [] ==> Expired(queue[1..][0].timestamp, now) && AllDue(queue[1..][1..], now)
  {
    assert forall j :: 0 <= j < |queue| - 2 ==> queue[1..][1..][j] == queue[1..][j + 1];
  }

  lemma SenderShrinks(p: Sys, k: nat, q: Packet, from: Addr) returns (p1: Sys)
    requires Ready(p, k) && q in p.toClient && q.ctrl == DATA_ACK && q.channel == k && q.connId == p.client.id
    requires ChanOf(p.client, k).sendQueue != [] && ChanOf(p.client, k).sendQueue[0].packet.seqNo == q.ackNo
    requires from != NO_ADDR
    ensures Hears(p, true, Mail(q, from), p1) && Shrunk(p, p1, k)
    ensures ConnOf(p1.client).keepaliveRetry == ConnOf(p.client).keepaliveRetry
  {
    SenderDequeues(p.client, q, from, p.now, k);
    p1 := SenderSteps(p, k, Recv(q, from, true));
    HearsMail(p, true, Mail(q, from), p1);
    RestIsDue(ChanOf(p.client, k).sendQueue, p.now);
  }

  // ---------- The receiver moves ----------

  /** The sender's side is untouched, and the receiver goes on. */
  ghost predicate ReceiverMoved(p: Sys, p1: Sys, k: nat)
    requires Ready(p, k)
  {
    && Ready(p1, k) && p1.client == p.client && p1.now == p.now && p1.toServer == p.toServer && p.toClient <= p1.toClient
    && (EnoughRoom(p, k) ==> EnoughRoom(p1, k))
  }

  lemma ReceiverSteps(p: Sys, k: nat, a: Action) returns (p1: Sys)
    requires Ready(p, k) && Enabled(p, AtServer(a)) && (a.Recv? || a.Timers?)
    requires Goes(p.server, Act(p.server, a, p.now).0, k)
    ensures p1 == Next(p, AtServer(a)) && Linked(p1, k) && Ready(p1, k)
    ensures p1.server.books[k].popped == p.server.books[k].popped
  {
    p1 := Next(p, AtServer(a));
    StepPinged(p, AtServer(a));
    ActBookStep(p.server, a, p.now, k);
    ReceiverKeepsLink(p.client, p.server, a, p.now, k, p.toServer, p.toClient);
    assert Linked(p1, k);
  }

  /** The same packets wait: so does the same room. */
  lemma SameRoom(p: Sys, p1: Sys, k: nat)
    requires Linked(p, k) && Linked(p1, k) && p1.client == p.client
    requires p1.server.books[k].popped == p.server.books[k].popped
    requires ChanOf(p1.server, k).ackNo == ChanOf(p.server, k).ackNo
    requires ChanOf(p1.server, k).recvQueue == ChanOf(p.server, k).recvQueue
    ensures EnoughRoom(p, k) ==> EnoughRoom(p1, k)
  {
    ReceiverView(p, k);
    ReceiverView(p1, k);
  }

  lemma ReceiverHearsPing(p: Sys, k: nat, q: Packet, from: Addr) returns (p1: Sys)
    requires Ready(p, k) && q in p.toServer && q.ctrl == PING && from != NO_ADDR
    ensures Hears(p, false, Mail(q, from), p1) && ReceiverMoved(p, p1, k)
    ensures ConnOf(p1.server) == ConnOf(p.server) && PongFor(q) in p1.toClient
  {
    NodeHearsPing(p.server, q, from, p.now);
    p1 := ReceiverSteps(p, k, Recv(q, from, true));
    HearsMail(p, false, Mail(q, from), p1);
    SameRoom(p, p1, k);
    assert Datagram(from, PongFor(q)) in [Datagram(from, PongFor(q))];
  }

  lemma ReceiverHearsPong(p: Sys, k: nat, q: Packet, from: Addr) returns (p1: Sys)
    requires Ready(p, k) && q in p.toServer && IsPong(q, p.server.id) && from != NO_ADDR
    ensures Hears(p, false, Mail(q, from), p1) && ReceiverMoved(p, p1, k)
    ensures ConnOf(p1.server).keepaliveRetry == 0 && ChanOf(p1.server, k) == ChanOf(p.server, k)
  {
    NodeHearsPong(p.server, q, from, p.now, k);
    p1 := ReceiverSteps(p, k, Recv(q, from, true));
    HearsMail(p, false, Mail(q, from), p1);
    SameRoom(p, p1, k);
  }

  /** The receiver's own timers: it goes on sending, and keeps what it has taken. */
  lemma ReceiverTimers(p: Sys, k: nat) returns (p1: Sys)
    requires Ready(p, k) && KeepsAlive(ConnOf(p.server), p.now)
    ensures TickedTo(p, false, [], p1) && ReceiverMoved(p, p1, k)
  {
    NodeTicks(p.server, p.now, k);
    p1 := ReceiverSteps(p, k, Timers);
    QuietTick(p, false, p1);
    SameRoom(p, p1, k);
  }

  lemma StillEnoughRoom(p1: Sys, p2: Sys, k: nat, q: Packet)
    requires Linked(p1, k) && Linked(p2, k) && EnoughRoom(p1, k) && p2.client == p1.client
    requires q.seqNo <= ChanOf(p1.server, k).ackNo && q.seqNo < p1.client.seq0 + |p1.client.books[k].sent|
    requires p2.server.books[k].popped == p1.server.books[k].popped
    requires Taken(ChanOf(p1.server, k), ChanOf(p2.server, k), q)
    ensures EnoughRoom(p2, k)
  {
    ReceiverView(p1, k);
    ReceiverView(p2, k);
  }

  /** The head as the receiver sees it: due, or taken before. */
  ghost predicate HeadFor(p: Sys, k: nat, q: Packet)
    requires Linked(p, k)
  {
    && q in p.toServer && q.ctrl == DATA && q.channel == k && q.connId == p.server.id
    && q.seqNo <= ChanOf(p.server, k).ackNo && q.seqNo < p.client.seq0 + |p.client.books[k].sent|
  }

  ghost predicate AnswerTo(q: Packet, answer: Packet, k: nat, id: ConnId) {
    answer.ctrl == DATA_ACK && answer.channel == k && answer.connId == id && answer.ackNo == q.seqNo
  }

  lemma ReceiverTakesHead(p: Sys, k: nat, q: Packet) returns (p1: Sys, answer: Packet)
    requires Ready(p, k) && HeadFor(p, k, q)
    ensures Hears(p, false, Mail(q, ConnOf(p.server).peer), p1) && ReceiverMoved(p, p1, k)
    ensures ConnOf(p1.server).keepaliveRetry == ConnOf(p.server).keepaliveRetry
    ensures answer in p1.toClient && AnswerTo(q, answer, k, p.client.id)
  {
    ReceiverTakes(p.server, q, p.now, k);
    p1 := ReceiverSteps(p, k, Delivery(p.server, q));
    HearsMail(p, false, Mail(q, ConnOf(p.server).peer), p1);
    answer := Answer(p.server, k, q);
    if EnoughRoom(p, k) {
      StillEnoughRoom(p, p1, k, q);
    }
  }

  // ---------- Three ticks ----------

  /** The sender's first tick: it answers the receiver's PING, if that waits for a PONG, and the head is out. */
  lemma FirstTick(p: Sys, k: nat, from: Addr) returns (inbox: seq<Mail>, p1: Sys)
    requires Ready(p, k) && KeepsAlive(ConnOf(p.client), p.now) && from != NO_ADDR
    ensures TickedTo(p, true, inbox, p1) && |inbox| <= 1 && SenderTicked(p, p1, k)
    ensures ConnOf(p1.server).keepaliveRetry > 0 ==> PongKnown(p1.toServer, p.server.id)
  {
    if ConnOf(p.server).keepaliveRetry > 0 {
      var ping :| ping in p.toClient && IsPing(ping, ConnOf(p.server).connId);
      var heard := SenderHearsPing(p, k, ping, from);
      p1 := SenderTimers(heard, k);
      inbox := [Mail(ping, from)] + [];
      ReceiverView(p, k);
      assert PongFor(ping) in p1.toServer && IsPong(PongFor(ping), p.server.id);
    } else {
      p1 := SenderTimers(p, k);
      inbox := [];
    }
  }

  lemma SecondTickData(p: Sys, k: nat, q: Packet) returns (inbox: seq<Mail>, p1: Sys, answer: Packet)
    requires Ready(p, k) && HeadFor(p, k, q) && ConnOf(p.server).keepaliveRetry == 0
    ensures TickedTo(p, false, inbox, p1) && |inbox| <= 1 && ReceiverMoved(p, p1, k)
    ensures answer in p1.toClient && AnswerTo(q, answer, k, p.client.id)
  {
    var taken;
    taken, answer := ReceiverTakesHead(p, k, q);
    p1 := ReceiverTimers(taken, k);
    inbox := [Mail(q, ConnOf(p.server).peer)] + [];
  }

  lemma SecondTickPing(p: Sys, k: nat, q: Packet, from: Addr) returns (inbox: seq<Mail>, p1: Sys, answer: Packet)
    requires Ready(p, k) && HeadFor(p, k, q) && ConnOf(p.server).keepaliveRetry == 0 && from != NO_ADDR
    ensures TickedTo(p, false, inbox, p1) && |inbox| <= 2 && ReceiverMoved(p, p1, k)
    ensures answer in p1.toClient && AnswerTo(q, answer, k, p.client.id)
    ensures ConnOf(p1.client).keepaliveRetry > 0 ==> PongKnown(p1.toClient, p.client.id)
  {
    if ConnOf(p.client).keepaliveRetry > 0 {
      var ping :| ping in p.toServer && IsPing(ping, ConnOf(p.client).connId);
      var heard := ReceiverHearsPing(p, k, ping, from);
      var rest;
      rest, p1, answer := SecondTickData(heard, k, q);
      inbox := [Mail(ping, from)] + rest;
      SenderName(p, k);
      assert PongFor(ping) in p1.toClient && IsPong(PongFor(ping), p.client.id);
    } else {
      inbox, p1, answer := SecondTickData(p, k, q);
    }
  }

  lemma SenderName(p: Sys, k: nat)
    requires Linked(p, k)
    ensures ConnOf(p.client).connId == p.client.id
  {
    assert EstablishedMatches(ConnOf(p.client), p.client);
  }

  /** The receiver's tick: it takes its PONG and the sender's PING, if there are any, and the head. */
  lemma SecondTick(p: Sys, k: nat, q: Packet, from: Addr) returns (inbox: seq<Mail>, p1: Sys, answer: Packet)
    requires Ready(p, k) && HeadFor(p, k, q) && from != NO_ADDR
    requires ConnOf(p.server).keepaliveRetry > 0 ==> PongKnown(p.toServer, p.server.id)
    ensures TickedTo(p, false, inbox, p1) && |inbox| <= 3 && ReceiverMoved(p, p1, k)
    ensures answer in p1.toClient && AnswerTo(q, answer, k, p.client.id)
    ensures ConnOf(p1.client).keepaliveRetry > 0 ==> PongKnown(p1.toClient, p.client.id)
  {
    if ConnOf(p.server).keepaliveRetry > 0 {
      var pong :| pong in p.toServer && IsPong(pong, p.server.id);
      var heard := ReceiverHearsPong(p, k, pong, from);
      var rest;
      rest, p1, answer := SecondTickPing(heard, k, q, from);
      inbox := [Mail(pong, from)] + rest;
    } else {
      inbox, p1, answer := SecondTickPing(p, k, q, from);
    }
  }

  /** After it takes the answer the sender's queue is one shorter, and its keepalive fresh. */
  ghost predicate Advanced(p: Sys, p1: Sys, k: nat)
    requires Ready(p, k) && ChanOf(p.client, k).sendQueue != []
  {
    && SenderFrame(p, p1, k) && Ready(p1, k)
    && |ChanOf(p1.client, k).sendQueue| == |ChanOf(p.client, k).sendQueue| - 1
    && ConnOf(p1.client).keepaliveRetry <= KEEPALIVE_RETRY
  }

  lemma ThirdTickAnswer(p: Sys, k: nat, answer: Packet, from: Addr) returns (inbox: seq<Mail>, p1: Sys)
    requires Ready(p, k) && ChanOf(p.client, k).sendQueue != [] && ConnOf(p.client).keepaliveRetry == 0
    requires answer in p.toClient && AnswerTo(ChanOf(p.client, k).sendQueue[0].packet, answer, k, p.client.id)
    requires from != NO_ADDR
    ensures TickedTo(p, true, inbox, p1) && |inbox| <= 1 && Advanced(p, p1, k)
  {
    var shrunk := SenderShrinks(p, k, answer, from);
    p1 := SenderTimers(shrunk, k);
    inbox := [Mail(answer, from)] + [];
  }

  /** The sender's second tick: it takes its PONG, if it waits for one, and the answer. */
  lemma ThirdTick(p: Sys, k: nat, answer: Packet, from: Addr) returns (inbox: seq<Mail>, p1: Sys)
    requires Ready(p, k) && ChanOf(p.client, k).sendQueue != [] && from != NO_ADDR
    requires answer in p.toClient && AnswerTo(ChanOf(p.client, k).sendQueue[0].packet, answer, k, p.client.id)
    requires ConnOf(p.client).keepaliveRetry > 0 ==> PongKnown(p.toClient, p.client.id)
    ensures TickedTo(p, true, inbox, p1) && |inbox| <= 2 && Advanced(p, p1, k)
  {
    if ConnOf(p.client).keepaliveRetry > 0 {
      var pong :| pong in p.toClient && IsPong(pong, p.client.id);
      var heard := SenderHearsPong(p, k, pong, from);
      var rest;
      rest, p1 := ThirdTickAnswer(heard, k, answer, from);
      inbox := [Mail(pong, from)] + rest;
    } else {
      inbox, p1 := ThirdTickAnswer(p, k, answer, from);
    }
  }

  // ---------- A round ----------

  /** What a round achieves: the queue loses its head, what is left of it is out or due, and the sender is patient. */
  ghost predicate RoundDone(p: Sys, p1: Sys, k: nat)
    requires Ready(p, k) && ChanOf(p.client, k).sendQueue != []
  {
    && Ready(p1, k) && ConnOf(p1.client).keepaliveRetry <= KEEPALIVE_RETRY
    && |ChanOf(p1.client, k).sendQueue| == |ChanOf(p.client, k).sendQueue| - 1
    && p1.client.books[k].sent == p.client.books[k].sent
    && (EnoughRoom(p, k) ==> EnoughRoom(p1, k))
  }

  /** Each tick finds at most three packets. */
  predicate Sparse(turns: seq<Turn>) {
    forall i :: 0 <= i < |turns| ==> !turns[i].Pause? ==> |turns[i].inbox| <= 3
  }

  lemma PausePlays(p: Sys, lag: nat)
    ensures Plays(p, [Pause(lag)], Later(p, lag))
  {
    FirstThen(p, Wait(lag), Later(p, lag), []);
    assert [Wait(lag)] + [] == [Wait(lag)];
    PlaysOne(p, Pause(lag));
  }

  lemma TickAndPause(p: Sys, client: bool, inbox: seq<Mail>, p1: Sys, lag: nat) returns (turns: seq<Turn>)
    requires TickedTo(p, client, inbox, p1) && |inbox| <= 3
    ensures |turns| == 2 && Sparse(turns) && Plays(p, turns, Later(p1, lag))
  {
    TickPlays(p, client, inbox, p1);
    PausePlays(p1, lag);
    PlaysThen(p, [TickOf(client, inbox)], p1, [Pause(lag)], Later(p1, lag));
    turns := [TickOf(client, inbox)] + [Pause(lag)];
  }

  /** Between the turns of a round that began at `p`: the same messages are queued. */
  ghost predicate OnTheWay(p: Sys, p1: Sys, k: nat)
    requires Ready(p, k)
  {
    && Ready(p1, k) && |ChanOf(p1.client, k).sendQueue| == |ChanOf(p.client, k).sendQueue|
    && p1.client.books[k].sent == p.client.books[k].sent && (EnoughRoom(p, k) ==> EnoughRoom(p1, k))
  }

  /** The head is on the network, and the receiver's PONG if it waits for one. */
  ghost predicate HeadSent(p: Sys, k: nat)
    requires Ready(p, k)
  {
    && ChanOf(p.client, k).sendQueue != [] && HeadFor(p, k, ChanOf(p.client, k).sendQueue[0].packet)
    && (ConnOf(p.server).keepaliveRetry > 0 ==> PongKnown(p.toServer, p.server.id))
  }

  /** The answer to the head is on the network, and the sender's PONG if it waits for one. */
  ghost predicate HeadAnswered(p: Sys, k: nat, answer: Packet)
    requires Ready(p, k)
  {
    && ChanOf(p.client, k).sendQueue != [] && answer in p.toClient
    && AnswerTo(ChanOf(p.client, k).sendQueue[0].packet, answer, k, p.client.id)
    && (ConnOf(p.client).keepaliveRetry > 0 ==> PongKnown(p.toClient, p.client.id))
  }

  /** The first two turns: the head is out, and the packets have had time to arrive. */
  lemma SendAndWait(p: Sys, k: nat, lag: nat, from: Addr) returns (turns: seq<Turn>, p1: Sys)
    requires Ready(p, k) && KeepsAlive(ConnOf(p.client), p.now) && ChanOf(p.client, k).sendQueue != [] && from != NO_ADDR
    ensures |turns| == 2 && Sparse(turns) && Plays(p, turns, p1)
    ensures OnTheWay(p, p1, k) && HeadSent(p1, k)
  {
    var inbox, ticked := FirstTick(p, k, from);
    turns := TickAndPause(p, true, inbox, ticked, lag);
    p1 := Later(ticked, lag);
    LaterReady(ticked, k, lag);
    HeadIsDue(p1, k);
  }

  lemma TakeAndWait(p: Sys, k: nat, lag: nat, from: Addr) returns (turns: seq<Turn>, p1: Sys, answer: Packet)
    requires Ready(p, k) && HeadSent(p, k) && from != NO_ADDR
    ensures |turns| == 2 && Sparse(turns) && Plays(p, turns, p1)
    ensures OnTheWay(p, p1, k) && HeadAnswered(p1, k, answer)
  {
    var inbox, ticked;
    inbox, ticked, answer := SecondTick(p, k, ChanOf(p.client, k).sendQueue[0].packet, from);
    turns := TickAndPause(p, false, inbox, ticked, lag);
    p1 := Later(ticked, lag);
    LaterReady(ticked, k, lag);
  }

  lemma TakeAnswer(p: Sys, k: nat, answer: Packet, from: Addr) returns (turns: seq<Turn>, end: Sys)
    requires Ready(p, k) && HeadAnswered(p, k, answer) && from != NO_ADDR
    ensures |turns| == 1 && Sparse(turns) && Plays(p, turns, end) && RoundDone(p, end, k)
  {
    var inbox;
    inbox, end := ThirdTick(p, k, answer, from);
    TickPlays(p, true, inbox, end);
    turns := [TickOf(true, inbox)];
  }

  lemma DoneFrom(p: Sys, p1: Sys, end: Sys, k: nat)
    requires Ready(p, k) && OnTheWay(p, p1, k) && ChanOf(p1.client, k).sendQueue != [] && RoundDone(p1, end, k)
    ensures ChanOf(p.client, k).sendQueue != [] && RoundDone(p, end, k)
  {
  }

  lemma RestOfRound(p: Sys, k: nat, lag: nat, from: Addr) returns (turns: seq<Turn>, end: Sys)
    requires Ready(p, k) && HeadSent(p, k) && from != NO_ADDR
    ensures |turns| == 3 && Sparse(turns) && Plays(p, turns, end) && RoundDone(p, end, k)
  {
    var a, p1, answer := TakeAndWait(p, k, lag, from);
    var b;
    b, end := TakeAnswer(p1, k, answer, from);
    DoneFrom(p, p1, end, k);
    PlaysThen(p, a, p1, b, end);
    turns := a + b;
  }

  /**
   One round of three ticks, `lag` milliseconds apart: the sender sends the head, the receiver takes it, the
   sender takes the answer. Whatever PINGs either end has unanswered are answered on the way.
   */
  lemma Round(p: Sys, k: nat, lag: nat, from: Addr) returns (turns: seq<Turn>, end: Sys)
    requires Ready(p, k) && KeepsAlive(ConnOf(p.client), p.now) && ChanOf(p.client, k).sendQueue != [] && from != NO_ADDR
    ensures |turns| == 5 && Sparse(turns) && Plays(p, turns, end) && RoundDone(p, end, k)
  {
    var a, p1 := SendAndWait(p, k, lag, from);
    var b;
    b, end := RestOfRound(p1, k, lag, from);
    DoneFrom(p, p1, end, k);
    PlaysThen(p, a, p1, b, end);
    turns := a + b;
  }

  // ---------- A sender at the end of its patience ----------

  ghost predicate Revived(p: Sys, p1: Sys, k: nat)
    requires Ready(p, k)
  {
    OnTheWay(p, p1, k) && ConnOf(p1.client).keepaliveRetry <= KEEPALIVE_RETRY
  }

  lemma ReceiverAnswersPing(p: Sys, k: nat, from: Addr) returns (inbox: seq<Mail>, p1: Sys)
    requires Ready(p, k) && KeepsAlive(ConnOf(p.server), p.now) && ConnOf(p.client).keepaliveRetry > 0 && from != NO_ADDR
    ensures TickedTo(p, false, inbox, p1) && |inbox| <= 1 && ReceiverMoved(p, p1, k)
    ensures PongKnown(p1.toClient, p.client.id)
  {
    var ping :| ping in p.toServer && IsPing(ping, ConnOf(p.client).connId);
    var heard := ReceiverHearsPing(p, k, ping, from);
    p1 := ReceiverTimers(heard, k);
    inbox := [Mail(ping, from)] + [];
    SenderName(p, k);
    assert PongFor(ping) in p1.toClient && IsPong(PongFor(ping), p.client.id);
  }

  lemma SenderTakesPong(p: Sys, k: nat, from: Addr) returns (turns: seq<Turn>, p1: Sys)
    requires Ready(p, k) && PongKnown(p.toClient, p.client.id) && from != NO_ADDR
    ensures |turns| == 1 && Sparse(turns) && Plays(p, turns, p1) && Revived(p, p1, k)
  {
    var pong :| pong in p.toClient && IsPong(pong, p.client.id);
    var heard := SenderHearsPong(p, k, pong, from);
    p1 := SenderTimers(heard, k);
    TickPlays(p, true, [Mail(pong, from)] + [], p1);
    turns := [TickOf(true, [Mail(pong, from)] + [])];
  }

  lemma PingAndWait(p: Sys, k: nat, lag: nat, from: Addr) returns (turns: seq<Turn>, p1: Sys)
    requires Ready(p, k) && KeepsAlive(ConnOf(p.server), p.now) && ConnOf(p.client).keepaliveRetry > 0 && from != NO_ADDR
    ensures |turns| == 2 && Sparse(turns) && Plays(p, turns, p1)
    ensures OnTheWay(p, p1, k) && PongKnown(p1.toClient, p1.client.id)
  {
    var inbox, ticked := ReceiverAnswersPing(p, k, from);
    turns := TickAndPause(p, false, inbox, ticked, lag);
    p1 := Later(ticked, lag);
    LaterReady(ticked, k, lag);
  }

  lemma RevivedFrom(p: Sys, p1: Sys, end: Sys, k: nat)
    requires Ready(p, k) && OnTheWay(p, p1, k) && Revived(p1, end, k)
    ensures Revived(p, end, k)
  {
  }

  /** If its own next tick would give up but the receiver's does not, an unanswered PING can still be answered. */
  lemma Revive(p: Sys, k: nat, lag: nat, from: Addr) returns (turns: seq<Turn>, end: Sys)
    requires Ready(p, k) && KeepsAlive(ConnOf(p.server), p.now) && ConnOf(p.client).keepaliveRetry > 0 && from != NO_ADDR
    ensures |turns| == 3 && Sparse(turns) && Plays(p, turns, end) && Revived(p, end, k)
  {
    var a, p1 := PingAndWait(p, k, lag, from);
    var b;
    b, end := SenderTakesPong(p1, k, from);
    RevivedFrom(p, p1, end, k);
    PlaysThen(p, a, p1, b, end);
    turns := a + b;
  }
}
