/**
 The theorems about whole runs of a client and a server.
 */
module EndToEnd {
  import opened Wrappers
  import opened Protocol
  import opened Endpoint
  import opened Node
  import opened Session

  /** Reached by some run in which neither end was established twice. */
  ghost predicate Reachable(s: Sys, start: Sys, steps: seq<Step>) {
    Init(start) && Possible(start, steps) && s == Final(start, steps) && Once(s)
  }

  lemma ReachableInv(s: Sys, start: Sys, steps: seq<Step>)
    requires Reachable(s, start, steps)
    ensures SysInv(s)
  {
    InitInv(start);
    RunKeepsInv(start, steps);
  }

  // ---------- Sequences ----------

  lemma {:induction false} SubsequenceOfPrefix<T>(a: seq<T>, b: seq<T>, c: seq<T>)
    requires Subsequence(a, b) && b <= c
    ensures Subsequence(a, c)
    decreases |c|
  {
    if |b| < |c| {
      SubsequenceOfPrefix(a, b, c[..|c| - 1]);
    } else {
      assert b == c;
    }
  }

  // ---------- Delivery ----------

  /**
   What the receiver took is the beginning of `owed`, in order and each once; what its application got is
   in that order too, and is itself the beginning if the receive queue never overflowed.
   */
  ghost predicate Delivers(owed: seq<Payload>, rcv: Book) {
    && rcv.accepted <= owed
    && Subsequence(rcv.popped, owed)
    && (rcv.lossless ==> rcv.popped <= owed)
  }

  lemma LinkDelivers(snd: Node, rcv: Node, k: nat, data: set<Packet>, acks: set<Packet>)
    requires NodeInv(rcv) && k < |snd.books| && k < |rcv.books|
    requires Skip(snd, rcv) >= 0 && Link(snd, rcv, k, data, acks)
    ensures Delivers(Dropped(snd.books[k].sent, Skip(snd, rcv)), rcv.books[k])
  {
    assert Delivered(rcv.books[k]);
    SubsequenceOfPrefix(rcv.books[k].popped, rcv.books[k].accepted, Dropped(snd.books[k].sent, Skip(snd, rcv)));
  }

  /** End to end, from the client to the server, when the ACK the server took passed its check. */
  lemma ClientToServer(s: Sys, start: Sys, steps: seq<Step>, k: nat)
    requires Reachable(s, start, steps)
    requires SharedChannel(s.client, s.server, k) && k < 256
    requires s.server.established == 1 ==> s.server.agreed
    requires s.client.seq0 + |s.client.books[k].sent| < MODULUS
    ensures Delivers(s.client.books[k].sent, s.server.books[k])
  {
    ReachableInv(s, start, steps);
    assert Skip(s.client, s.server) == 0;
    assert LinkInv(s.client, s.server, k, s.toServer, s.toClient);
    LinkDelivers(s.client, s.server, k, s.toServer, s.toClient);
    assert Dropped(s.client.books[k].sent, 0) == s.client.books[k].sent;
  }

  /** The run up to step `j`, in which the client sent the ACK the server took, with the counter of that moment. */
  ghost predicate AckSent(s: Sys, start: Sys, steps: seq<Step>, j: nat) {
    && j < |steps| && steps[j].AtClient? && Possible(start, steps[..j + 1])
    && var sender := Final(start, steps[..j + 1]);
       && (exists q :: q in sender.toServer && q.ctrl == ACK && q.seqNo == s.server.ack0)
       && FirstCounter(sender.client, s.server.ack0)
       && sender.client.seq0 == s.client.seq0 && |sender.client.books| == |s.client.books|
       && sender.client.books[0].sent <= s.client.books[0].sent
  }

  lemma AckOfServer(s: Sys, start: Sys, steps: seq<Step>) returns (j: nat)
    requires Reachable(s, start, steps) && s.server.established == 1 && s.client.books != []
    ensures AckSent(s, start, steps, j)
  {
    ReachableInv(s, start, steps);
    InitInv(start);
    var q :| q in s.toServer && q.ctrl == ACK && q.seqNo == s.server.ack0;
    j := AckSentAt(start, steps, q);
    EstablishedBefore(start, steps, j);
  }

  lemma EstablishedBefore(start: Sys, steps: seq<Step>, j: nat)
    requires SysInv(start) && Possible(start, steps) && Once(Final(start, steps)) && j < |steps|
    requires Possible(start, steps[..j + 1])
    requires var sender := Final(start, steps[..j + 1]);
             && Possible(sender, steps[j + 1..]) && Final(sender, steps[j + 1..]) == Final(start, steps)
             && sender.client.established >= 1 && sender.client.books != []
    ensures var sender, s := Final(start, steps[..j + 1]), Final(start, steps);
            && sender.client.seq0 == s.client.seq0 && |sender.client.books| == |s.client.books|
            && sender.client.books[0].sent <= s.client.books[0].sent
  {
    var sender := Final(start, steps[..j + 1]);
    EstablishedOnlyGrows(sender, steps[j + 1..]);
    RunKeepsInv(start, steps[..j + 1]);
    FirstNumberKept(sender, steps[j + 1..]);
  }

  lemma SkipDelivers(s: Sys, k: nat)
    requires SysInv(s) && s.server.established == 1
    requires SharedChannel(s.client, s.server, k) && k < 256
    requires s.client.books != [] && s.client.seq0 + |s.client.books[0].sent| < MODULUS
    requires s.client.seq0 + |s.client.books[k].sent| < MODULUS
    ensures var d := Skip(s.client, s.server);
            d >= 0 && (d == 0 <==> s.server.agreed) && Delivers(Dropped(s.client.books[k].sent, d), s.server.books[k])
  {
    assert LinkInv(s.client, s.server, k, s.toServer, s.toClient);
    LinkDelivers(s.client, s.server, k, s.toServer, s.toClient);
  }

  /**
   And when it did not: the ACK the server took was sent by step `j` of the run, when the client had queued `d`
   messages on its first channel, and on every reliable channel exactly the first `d` messages are skipped.
   They are acknowledged and never accepted; what follows them is delivered as it should be. `d` is zero
   exactly when the check passes.
   */
  lemma UncheckedAckSkips(s: Sys, start: Sys, steps: seq<Step>, k: nat) returns (j: nat)
    requires Reachable(s, start, steps)
    requires SharedChannel(s.client, s.server, k) && k < 256 && s.server.established == 1
    requires s.client.books != [] && s.client.seq0 + |s.client.books[0].sent| < MODULUS
    requires s.client.seq0 + |s.client.books[k].sent| < MODULUS
    ensures AckSent(s, start, steps, j)
    ensures var d, sender := Skip(s.client, s.server), Final(start, steps[..j + 1]);
            && d == |sender.client.books[0].sent|
            && (d == 0 <==> s.server.agreed)
            && Delivers(Dropped(s.client.books[k].sent, d), s.server.books[k])
  {
    ReachableInv(s, start, steps);
    SkipDelivers(s, k);
    j := AckOfServer(s, start, steps);
  }

  /** End to end, from the server to the client: the handshake always matches in this direction. */
  lemma ServerToClient(s: Sys, start: Sys, steps: seq<Step>, k: nat)
    requires Reachable(s, start, steps)
    requires SharedChannel(s.server, s.client, k) && k < 256
    requires s.server.seq0 + |s.server.books[k].sent| < MODULUS
    ensures Delivers(s.server.books[k].sent, s.client.books[k])
  {
    ReachableInv(s, start, steps);
    if s.server.established == 1 {
      assert Skip(s.server, s.client) == 0;
      assert LinkInv(s.server, s.client, k, s.toClient, s.toServer);
      LinkDelivers(s.server, s.client, k, s.toClient, s.toServer);
      assert Dropped(s.server.books[k].sent, 0) == s.server.books[k].sent;
    } else {
      assert Untouched(s.client, k);
      assert Delivered(s.client.books[k]);
      SubsequenceOfPrefix(s.client.books[k].popped, s.client.books[k].accepted, s.server.books[k].sent);
    }
  }

  // ---------- The window of one ----------

  /** The client's connection is established over channel `k`. */
  ghost predicate ClientUp(s: Sys, k: nat) {
    && |s.client.ctx.conns| == 1
    && s.client.ctx.conns[0].state.Established? && s.client.ctx.conns[0].channels.Some?
    && k < |s.client.ctx.conns[0].channels.value|
  }

  ghost predicate ServerUp(s: Sys, k: nat) {
    && s.server.slot < |s.server.ctx.conns|
    && s.server.ctx.conns[s.server.slot].state.Established? && s.server.ctx.conns[s.server.slot].channels.Some?
    && k < |s.server.ctx.conns[s.server.slot].channels.value|
  }

  ghost predicate BothEstablished(s: Sys, k: nat) {
    ClientUp(s, k) && ServerUp(s, k)
  }

  ghost function ClientChan(s: Sys, k: nat): Chan
    requires ClientUp(s, k)
  {
    s.client.ctx.conns[0].channels.value[k]
  }

  ghost function ServerChan(s: Sys, k: nat): Chan
    requires ServerUp(s, k)
  {
    s.server.ctx.conns[s.server.slot].channels.value[k]
  }

  /** No DATA packet ever sent is ahead of the receiver, and no acknowledgement ever sent is level with it. */
  ghost predicate AheadOfAll(rcv: Chan, k: nat, data: set<Packet>, acks: set<Packet>) {
    && (forall q :: q in data && q.ctrl == DATA && q.channel == k ==> q.seqNo <= rcv.ackNo)
    && (forall q :: q in acks && q.ctrl == DATA_ACK && q.channel == k ==> q.ackNo < rcv.ackNo)
  }

  /** On a matched channel the receiver's counter does not wrap. */
  lemma ExpectedNumber(snd: Node, rcv: Node, k: nat, data: set<Packet>, acks: set<Packet>, in_: Chan)
    requires k < |snd.books| && k < |rcv.books| && Skip(snd, rcv) == 0 && Link(snd, rcv, k, data, acks)
    requires rcv.ack0 == snd.seq0 && snd.seq0 + |snd.books[k].sent| < MODULUS
    requires ChannelMatches(in_, k, rcv.books[k], rcv.id, rcv.seq0, rcv.ack0)
    ensures in_.ackNo == snd.seq0 + |rcv.books[k].accepted|
  {
  }

  lemma AheadFromLink(snd: Node, rcv: Node, k: nat, data: set<Packet>, acks: set<Packet>, in_: Chan)
    requires k < |snd.books| && k < |rcv.books| && Skip(snd, rcv) == 0 && Link(snd, rcv, k, data, acks)
    requires in_.ackNo == snd.seq0 + |rcv.books[k].accepted|
    ensures AheadOfAll(in_, k, data, acks)
  {
    forall q | q in data && q.ctrl == DATA && q.channel == k ensures q.seqNo <= in_.ackNo {
      assert IsSent(q, snd, k);
    }
  }

  /** The server, while it is established, whatever has become of the client. */
  lemma ServerAhead(s: Sys, start: Sys, steps: seq<Step>, k: nat)
    requires Reachable(s, start, steps)
    requires SharedChannel(s.client, s.server, k) && k < 256 && ServerUp(s, k)
    requires s.server.agreed
    requires s.client.seq0 + |s.client.books[k].sent| < MODULUS
    ensures AheadOfAll(ServerChan(s, k), k, s.toServer, s.toClient)
  {
    ReachableInv(s, start, steps);
    assert LinkInv(s.client, s.server, k, s.toServer, s.toClient);
    ExpectedNumber(s.client, s.server, k, s.toServer, s.toClient, ServerChan(s, k));
    AheadFromLink(s.client, s.server, k, s.toServer, s.toClient, ServerChan(s, k));
  }

  /** The client, while it is established, whatever has become of the server. */
  lemma ClientAhead(s: Sys, start: Sys, steps: seq<Step>, k: nat)
    requires Reachable(s, start, steps)
    requires SharedChannel(s.server, s.client, k) && k < 256 && ClientUp(s, k)
    requires s.server.established == 1 && s.server.seq0 + |s.server.books[k].sent| < MODULUS
    ensures AheadOfAll(ClientChan(s, k), k, s.toClient, s.toServer)
  {
    ReachableInv(s, start, steps);
    assert LinkInv(s.server, s.client, k, s.toClient, s.toServer);
    ExpectedNumber(s.server, s.client, k, s.toClient, s.toServer, ClientChan(s, k));
    AheadFromLink(s.server, s.client, k, s.toClient, s.toServer, ClientChan(s, k));
  }

  /** The counters of a sending and a receiving channel are within one of each other. */
  ghost predicate WindowOfOne(snd: Chan, rcv: Chan) {
    snd.seqNo - |snd.sendQueue| <= rcv.ackNo <= snd.seqNo - |snd.sendQueue| + 1
  }

  lemma WindowFromLink(snd: Node, rcv: Node, k: nat, data: set<Packet>, acks: set<Packet>, out: Chan, in_: Chan)
    requires k < |snd.books| && k < |rcv.books| && Skip(snd, rcv) == 0 && Link(snd, rcv, k, data, acks)
    requires rcv.ack0 == snd.seq0 && snd.seq0 + |snd.books[k].sent| < MODULUS
    requires ChannelMatches(out, k, snd.books[k], snd.id, snd.seq0, snd.ack0)
    requires ChannelMatches(in_, k, rcv.books[k], rcv.id, rcv.seq0, rcv.ack0)
    ensures WindowOfOne(out, in_)
  {
  }

  /** Towards the server: its counter is the client's oldest unacknowledged number or the next one. */
  lemma ClientWindow(s: Sys, start: Sys, steps: seq<Step>, k: nat)
    requires Reachable(s, start, steps)
    requires SharedChannel(s.client, s.server, k) && k < 256 && BothEstablished(s, k)
    requires s.server.agreed
    requires s.client.seq0 + |s.client.books[k].sent| < MODULUS
    ensures WindowOfOne(ClientChan(s, k), ServerChan(s, k))
  {
    ReachableInv(s, start, steps);
    assert LinkInv(s.client, s.server, k, s.toServer, s.toClient);
    WindowFromLink(s.client, s.server, k, s.toServer, s.toClient, ClientChan(s, k), ServerChan(s, k));
  }

  lemma ServerWindow(s: Sys, start: Sys, steps: seq<Step>, k: nat)
    requires Reachable(s, start, steps)
    requires SharedChannel(s.server, s.client, k) && k < 256 && BothEstablished(s, k)
    requires s.server.seq0 + |s.server.books[k].sent| < MODULUS
    ensures WindowOfOne(ServerChan(s, k), ClientChan(s, k))
  {
    ReachableInv(s, start, steps);
    assert LinkInv(s.server, s.client, k, s.toClient, s.toServer);
    WindowFromLink(s.server, s.client, k, s.toClient, s.toServer, ServerChan(s, k), ClientChan(s, k));
  }

  ghost predicate NoDesync(con: Conn, q: Packet, from: Addr, reliable: seq<bool>) {
    ConnOk(con, reliable) && DataEffect(con, q, from, reliable).con.desyncCount == con.desyncCount
  }

  /** So the server never takes the branch that counts a packet from the future, also after its peer closed. */
  lemma ServerNeverDesyncs(s: Sys, start: Sys, steps: seq<Step>, q: Packet, from: Addr)
    requires Reachable(s, start, steps)
    requires q in s.toServer && q.ctrl == DATA
    requires SharedChannel(s.client, s.server, q.channel) && ServerUp(s, q.channel)
    requires s.server.agreed && s.client.seq0 + |s.client.books[q.channel].sent| < MODULUS
    ensures NoDesync(s.server.ctx.conns[s.server.slot], q, from, s.server.ctx.reliable)
  {
    ReachableInv(s, start, steps);
    ServerAhead(s, start, steps, q.channel);
  }

  /** Nor does the client. */
  lemma ClientNeverDesyncs(s: Sys, start: Sys, steps: seq<Step>, q: Packet, from: Addr)
    requires Reachable(s, start, steps)
    requires q in s.toClient && q.ctrl == DATA
    requires SharedChannel(s.server, s.client, q.channel) && ClientUp(s, q.channel)
    requires s.server.seq0 + |s.server.books[q.channel].sent| < MODULUS
    ensures NoDesync(s.client.ctx.conns[0], q, from, s.client.ctx.reliable)
  {
    ReachableInv(s, start, steps);
    ClientAhead(s, start, steps, q.channel);
  }

  // ---------- The handshake ----------

  /** Both ends expect of each other exactly what the other has not yet let go of. */
  ghost predicate CountersMatch(client: Chan, server: Chan) {
    && server.ackNo == client.seqNo - |client.sendQueue|
    && client.ackNo == server.seqNo - |server.sendQueue|
  }

  /**
   When the server takes an ACK and becomes established, both ends hold one identifier; the client expects the
   server's first number, and the server the client's exactly when the ACK passes the check the library makes
   and only logs. This is so even if the client has queued data, or closed, meanwhile.
   */
  lemma HandshakeAgreesIffChecked(s: Sys, start: Sys, steps: seq<Step>, p: Packet, from: Addr, sendOk: bool)
    requires Reachable(s, start, steps)
    requires Enabled(s, AtServer(Recv(p, from, sendOk)))
    requires s.server.established == 0
    requires Next(s, AtServer(Recv(p, from, sendOk))).server.established == 1
    ensures var s' := Next(s, AtServer(Recv(p, from, sendOk)));
            && s'.server.id == s'.client.id == p.connId && s'.server.slot < |s.server.ctx.conns|
            && s'.client.ack0 == s'.server.seq0 && s'.server.ack0 == p.seqNo
            && (s'.server.ack0 == s'.client.seq0 <==> CountersAgree(s.server.ctx.conns[s'.server.slot], p))
  {
    ReachableInv(s, start, steps);
    StepKeepsInv(s, AtServer(Recv(p, from, sendOk)));
    ServerEstablishes(s, Recv(p, from, sendOk));
  }

  /**
   If the client is still established then, a channel agrees in both directions exactly when the ACK carries
   the number of the oldest message in the client's queue; for a reliable channel, exactly when it passes the
   check.
   */
  lemma ChannelsAgreeIffChecked(s: Sys, start: Sys, steps: seq<Step>, p: Packet, from: Addr, sendOk: bool, k: nat)
    requires Reachable(s, start, steps)
    requires Enabled(s, AtServer(Recv(p, from, sendOk)))
    requires s.server.established == 0
    requires var s' := Next(s, AtServer(Recv(p, from, sendOk)));
             s'.server.established == 1 && BothEstablished(s', k)
    requires k < |s.client.books| && k < |s.server.books| && s.client.seq0 + |s.client.books[k].sent| < MODULUS
    ensures var s' := Next(s, AtServer(Recv(p, from, sendOk)));
            && s'.server.ctx.conns[s'.server.slot].connId == s'.client.ctx.conns[0].connId
            && (CountersMatch(ClientChan(s', k), ServerChan(s', k))
                <==> p.seqNo == s.client.seq0 + s.client.books[k].base)
            && (k < |s.client.ctx.reliable| && s.client.ctx.reliable[k] ==>
                  (CountersMatch(ClientChan(s', k), ServerChan(s', k)) <==> s'.server.agreed))
  {
    ReachableInv(s, start, steps);
    var a := Recv(p, from, sendOk);
    StepKeepsInv(s, AtServer(a));
    ServerEstablishes(s, a);
    NoBooksYet(s.server, k);
    assert Untouched(s.client, k);
    CountersOfFreshServer(Next(s, AtServer(a)), k);
  }

  /** With nothing accepted yet, what each end expects of the other. */
  lemma CountersOfFreshServer(s: Sys, k: nat)
    requires NodeInv(s.client) && NodeInv(s.server) && ClientStart(s)
    requires BothEstablished(s, k) && k < |s.client.books| && k < |s.server.books|
    requires s.server.books[k] == EMPTY_BOOK && s.client.books[k].accepted == []
    requires s.server.seq0 == s.server.ctx.iss
    requires s.client.seq0 + |s.client.books[k].sent| < MODULUS
    ensures s.client.ctx.conns[0].connId == s.client.id
    ensures s.server.ctx.conns[s.server.slot].connId == s.server.id
    ensures CountersMatch(ClientChan(s, k), ServerChan(s, k)) <==> s.server.ack0 == s.client.seq0 + s.client.books[k].base
  {
    assert ChannelMatches(ClientChan(s, k), k, s.client.books[k], s.client.id, s.client.seq0, s.client.ack0);
    assert ChannelMatches(ServerChan(s, k), k, s.server.books[k], s.server.id, s.server.seq0, s.server.ack0);
  }

  // ---------- The receive queue ----------

  lemma KeptFromMatch(n: Node, k: nat)
    requires NodeInv(n) && k < |n.books| && n.ctx.conns[n.slot].state.Established?
    ensures n.books[k].popped + Payloads(n.ctx.conns[n.slot].channels.value[k].recvQueue) == n.books[k].accepted
       <==> n.books[k].lossless
  {
    assert ChannelMatches(n.ctx.conns[n.slot].channels.value[k], k, n.books[k], n.id, n.seq0, n.ack0);
  }

  /**
   In every run: what an end accepted from the other is what its application popped followed by what waits for
   it, exactly when no packet was accepted into a full receive queue. On a reliable channel that began
   matched, that is the beginning of what the other end sent, with nothing missing.
   */
  lemma NothingLostIffNeverFull(s: Sys, start: Sys, steps: seq<Step>, k: nat)
    requires Reachable(s, start, steps) && k < 256
    ensures ClientUp(s, k) ==>
              && k < |s.client.books|
              && (s.client.books[k].popped + Payloads(ClientChan(s, k).recvQueue) == s.client.books[k].accepted
                  <==> s.client.books[k].lossless)
    ensures ServerUp(s, k) ==>
              && k < |s.server.books|
              && (s.server.books[k].popped + Payloads(ServerChan(s, k).recvQueue) == s.server.books[k].accepted
                  <==> s.server.books[k].lossless)
    ensures ServerUp(s, k) && SharedChannel(s.client, s.server, k) && s.server.agreed && s.server.books[k].lossless
            && s.client.seq0 + |s.client.books[k].sent| < MODULUS ==>
              s.server.books[k].popped + Payloads(ServerChan(s, k).recvQueue) <= s.client.books[k].sent
    ensures ClientUp(s, k) && SharedChannel(s.server, s.client, k) && s.client.books[k].lossless
            && s.server.seq0 + |s.server.books[k].sent| < MODULUS ==>
              s.client.books[k].popped + Payloads(ClientChan(s, k).recvQueue) <= s.server.books[k].sent
  {
    ReachableInv(s, start, steps);
    if ClientUp(s, k) {
      KeptFromMatch(s.client, k);
      if SharedChannel(s.server, s.client, k) && s.server.seq0 + |s.server.books[k].sent| < MODULUS {
        ServerToClient(s, start, steps, k);
      }
    }
    if ServerUp(s, k) {
      KeptFromMatch(s.server, k);
      if SharedChannel(s.client, s.server, k) && s.server.agreed && s.client.seq0 + |s.client.books[k].sent| < MODULUS {
        ClientToServer(s, start, steps, k);
      }
    }
  }
}
