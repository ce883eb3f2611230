/**
 The library as it runs: connections whose fields the handlers and timers update in place, reached
 through one context. Every method is proved to compute the function of module Endpoint that specifies
 it, so what is proved of those functions holds of this code.
 */
module Context {
  import opened Wrappers
  import opened Protocol
  import opened Endpoint

  /**
   What a connection reaches through its context: the channel configuration, the event queue, the socket
   and the allocator. `outbox` is every datagram handed to the socket, `blocks` the allocator's balance.
   */
  class Host {
    const reliable: seq<bool>
    const eventCapacity: nat
    var events: seq<Event>
    var outbox: seq<Datagram>
    var blocks: int

    constructor (reliable: seq<bool>, eventCapacity: nat)
      ensures this.reliable == reliable && this.eventCapacity == eventCapacity
      ensures events == [] && outbox == [] && blocks == 0
    {
      this.reliable := reliable;
      this.eventCapacity := eventCapacity;
      events, outbox, blocks := [], [], 0;
    }

    method PushEvent(slot: nat, note: Note)
      modifies this`events
      ensures events == Endpoint.PushEvent(old(events), eventCapacity, Event(slot, note))
    {
      if |events| < eventCapacity {
        events := events + [Event(slot, note)];
      }
    }

    method SendTo(to: Addr, packet: Packet)
      modifies this`outbox
      ensures outbox == old(outbox) + [Datagram(to, packet)]
    {
      outbox := outbox + [Datagram(to, packet)];
    }

    /** What the notes, packets and blocks of an effect leave behind. */
    twostate predicate Shows(slot: nat, notes: seq<Note>, sent: seq<Datagram>, balance: int)
      reads this
    {
      && events == PushNotes(old(events), eventCapacity, slot, notes)
      && outbox == old(outbox) + sent
      && blocks == old(blocks) + balance
    }
  }

  class Connection {
    const host: Host
    const slot: nat
    var peer: Addr
    var connId: ConnId
    var state: State
    var retry: nat
    var keepaliveRetry: nat
    var lossCount: nat
    var desyncCount: nat
    var seqNo: U32
    var ackNo: U32
    var channels: Option<seq<Chan>>
    var time: nat
    var keepalive: nat

    /** A zeroed slot. */
    constructor (host: Host, slot: nat)
      ensures this.host == host && this.slot == slot
      ensures View() == ZEROED
    {
      this.host := host;
      this.slot := slot;
      peer, connId, state := NO_ADDR, ConnId(0, 0), Closed;
      retry, keepaliveRetry, lossCount, desyncCount := 0, 0, 0, 0;
      seqNo, ackNo, channels, time, keepalive := 0, 0, None, 0, 0;
    }

    ghost function View(): Conn
      reads this
    {
      Conn(peer, connId, state, retry, keepaliveRetry, lossCount, desyncCount, seqNo, ackNo, channels, time, keepalive)
    }

    ghost predicate Valid()
      reads this
    {
      ConnOk(View(), host.reliable)
    }

    /** This connection and its host changed as `e` says. */
    twostate predicate Performed(e: Effect)
      reads this, host
    {
      View() == e.con && host.Shows(slot, e.notes, e.sent, e.blocks)
    }

    // ---------- Channels ----------

    /** Allocates the channel array and its queues, empty. */
    method CreateChannels()
      modifies this`channels, host`blocks
      ensures channels == Some(FreshChannels(host.reliable, 0, 0))
      ensures host.blocks == old(host.blocks) + ChannelBlocks(host.reliable)
    {
      var chans: seq<Chan> := [];
      host.blocks := host.blocks + 1;
      for i := 0 to |host.reliable|
        modifies host`blocks
        invariant chans == FreshChannels(host.reliable, 0, 0)[..i]
        invariant host.blocks == old(host.blocks) + 1 + 2 * i
      {
        host.blocks := host.blocks + 2;
        chans := chans + [Chan(host.reliable[i], 0, 0, [], [])];
      }
      assert chans == FreshChannels(host.reliable, 0, 0);
      channels := Some(chans);
    }

    /** Gives every channel the connection's counter and the peer's. */
    method WriteAck(ack: U32)
      requires channels == Some(FreshChannels(host.reliable, 0, 0))
      modifies this`channels
      ensures channels == Some(FreshChannels(host.reliable, seqNo, ack))
    {
      var chans := channels.value;
      for i := 0 to |chans|
        invariant |chans| == |host.reliable|
        invariant forall j :: 0 <= j < i ==> chans[j] == Chan(host.reliable[j], seqNo, ack, [], [])
        invariant forall j :: i <= j < |chans| ==> chans[j] == Chan(host.reliable[j], 0, 0, [], [])
      {
        chans := chans[i := chans[i].(seqNo := seqNo, ackNo := ack)];
      }
      assert chans == FreshChannels(host.reliable, seqNo, ack);
      channels := Some(chans);
    }

    method FreeChannels()
      modifies this`channels, host`blocks
      ensures View() == old(View()).(channels := None)
      ensures host.blocks == old(host.blocks) - FreedBlocks(old(View()), host.reliable)
    {
      if channels.Some? {
        var freed := 0;
        for i := 0 to |host.reliable|
          invariant freed == 2 * i
        {
          freed := freed + 2;
        }
        host.blocks := host.blocks - (freed + 1);
        channels := None;
      }
    }

    // ---------- Packets ----------

    method OnSyn(from: Addr, now: nat)
      modifies this
      ensures Performed(SynEffect(old(View()), from, now))
    {
      assert host.outbox + [] == host.outbox;
      if !state.Established? {
        state := SynRcvd;
        retry, lossCount, peer, time := 0, 0, from, now;
      }
    }

    method OnAck(p: Packet, now: nat)
      modifies this, host
      ensures Performed(AckEffect(old(View()), p, now, host.reliable))
    {
      if state.SynRcvd? {
        state := Established;
        CreateChannels();
        WriteAck(p.seqNo);
        host.PushEvent(slot, Connected);
        keepaliveRetry := 0;
        keepalive := now + KEEPALIVE_TIME;
      }
    }

    method OnSynAck(p: Packet, now: nat, sendOk: bool)
      requires Valid() && |host.reliable| >= 1
      modifies this, host
      ensures Performed(SynAckEffect(old(View()), p, now, sendOk, host.reliable))
    {
      assert host.outbox + [] == host.outbox;
      Prepare(p, now);
      var first := channels.value[0];
      var reply := Packet(ACK, 0, connId, first.seqNo, first.ackNo, []);
      if sendOk {
        host.SendTo(peer, reply);
        state := Established;
      }
    }

    /** Takes the identifier and the first counters from a SYN|ACK, unless already established. */
    method Prepare(p: Packet, now: nat)
      modifies this, host`events, host`blocks
      ensures View() == SynAckPrepared(old(View()), p, now, host.reliable)
      ensures host.events == if old(state).Established? then old(host.events)
                             else Endpoint.PushEvent(old(host.events), host.eventCapacity, Event(slot, Connected))
      ensures host.blocks == old(host.blocks) + if old(state).Established? then 0 else ChannelBlocks(host.reliable)
    {
      if state.SynSent? {
        connId := p.connId;
      }
      if !state.Established? {
        CreateChannels();
        host.PushEvent(slot, Connected);
        keepaliveRetry := 0;
        keepalive := now + KEEPALIVE_TIME;
        ackNo := p.seqNo;
        WriteAck(p.seqNo);
      }
    }

    method CloseBy(reason: Reason)
      modifies this, host
      ensures View() == old(View()).(state := Closed, channels := None)
      ensures host.Shows(slot, [Disconnected(reason)], [], -FreedBlocks(old(View()), host.reliable))
    {
      state := Closed;
      FreeChannels();
      host.PushEvent(slot, Disconnected(reason));
    }

    method OnFin(sendOk: bool)
      modifies this, host
      ensures Performed(FinEffect(old(View()), sendOk, host.reliable))
    {
      if sendOk {
        host.SendTo(peer, Packet(FIN_ACK, 0, connId, 0, 0, []));
        if !state.Closed? {
          CloseBy(ByPeer);
        }
      }
    }

    method OnFinAck()
      modifies this, host
      ensures Performed(FinAckEffect(old(View()), host.reliable))
    {
      if !state.Closed? {
        CloseBy(ByPeer);
      }
    }

    method OnData(p: Packet, from: Addr)
      requires Valid()
      modifies this, host
      ensures Performed(DataEffect(old(View()), p, from, host.reliable))
    {
      assert host.outbox + [] == host.outbox;
      if state.Established? && p.channel < |host.reliable| {
        if peer == from {
          TakeData(p);
        } else {
          var chan := channels.value[p.channel];
          if chan.reliable && p.seqNo == chan.ackNo {
            peer := from;
            host.PushEvent(slot, Migrated);
            TakeData(p);
            PushNotesAppend(old(host.events), host.eventCapacity, slot, [Migrated],
                            SequencedData(old(View()).(peer := from), p).notes);
          }
        }
      }
    }

    method TakeData(p: Packet)
      requires Valid() && channels.Some? && p.channel < |host.reliable|
      modifies this, host
      ensures Performed(SequencedData(old(View()), p))
    {
      var chan := channels.value[p.channel];
      if p.seqNo < chan.ackNo && chan.reliable {
        host.SendTo(peer, Packet(DATA_ACK, p.channel, connId, chan.seqNo, p.seqNo, []));
      } else if p.seqNo > chan.ackNo && chan.reliable {
        desyncCount := desyncCount + 1;
        assert host.outbox + [] == host.outbox;
      } else {
        Accept(p);
      }
    }

    /** Queues the payload if there is room, counts the packet, acknowledges and reports it. */
    method Accept(p: Packet)
      requires Valid() && channels.Some? && p.channel < |host.reliable|
      modifies this`channels, host
      ensures View() == AcceptData(old(View()), p).con
      ensures host.events == Endpoint.PushEvent(old(host.events), host.eventCapacity, Event(slot, Received(p.channel)))
      ensures host.outbox == old(host.outbox) + AcceptData(old(View()), p).sent
      ensures host.blocks == old(host.blocks)
    {
      var chan := channels.value[p.channel];
      if |chan.recvQueue| < QUEUE_CAPACITY {
        chan := chan.(recvQueue := chan.recvQueue + [p]);
      }
      chan := chan.(ackNo := Next32(chan.ackNo));
      channels := Some(channels.value[p.channel := chan]);
      if chan.reliable {
        host.SendTo(peer, Packet(DATA_ACK, p.channel, connId, chan.seqNo, p.seqNo, []));
      }
      host.PushEvent(slot, Received(p.channel));
    }

    method OnDataAck(p: Packet)
      requires Valid()
      modifies this
      ensures Performed(DataAckEffect(old(View()), p, host.reliable))
    {
      assert host.outbox + [] == host.outbox;
      if state.Established? && p.channel < |host.reliable| {
        var chan := channels.value[p.channel];
        if chan.sendQueue != [] && chan.sendQueue[0].packet.seqNo == p.ackNo {
          channels := Some(channels.value[p.channel := chan.(sendQueue := chan.sendQueue[1..])]);
        }
      }
    }

    method OnPong(now: nat)
      modifies this
      ensures Performed(PongEffect(old(View()), now))
    {
      assert host.outbox + [] == host.outbox;
      keepaliveRetry := 0;
      keepalive := now + KEEPALIVE_TIME;
    }

    method OnRst()
      modifies this, host
      ensures Performed(RstEffect(old(View()), host.reliable))
    {
      if state.Established? {
        FreeChannels();
      }
      state := Closed;
      host.PushEvent(slot, Disconnected(Reset));
    }

    /** Starts over as a client; the SYN goes out with the next tick. */
    method Connect(iss: U32, server: Addr, now: nat, addrOk: bool) returns (code: Code)
      modifies this
      ensures (View(), code) == ConnectConn(old(View()), iss, server, now, addrOk)
    {
      seqNo, ackNo, connId, lossCount := iss, 0, UNASSIGNED, 0;
      peer := Addr(peer.ip, server.port);
      if !addrOk {
        return InvalidArgument;
      }
      peer := server;
      state, retry, time := SynSent, 0, now;
      return Success;
    }

    // ---------- Timers ----------

    /** One attempt of a handshake or a close; false when the attempts are used up. */
    method Attempt(now: nat, packet: Packet) returns (tried: bool)
      modifies this`time, this`retry, host`outbox
      ensures tried == (old(retry) < MAX_RETRY)
      ensures tried ==> Performed(RetryEffect(old(View()), now, packet, Nothing(old(View()))))
      ensures !tried ==> View() == old(View()) && host.outbox == old(host.outbox)
    {
      tried := retry < MAX_RETRY;
      if tried {
        host.SendTo(peer, packet);
        time := now + RETRY_TIMEOUT * (retry + 1);
        retry := retry + 1;
      }
    }

    method RunTimers(now: nat)
      requires Valid()
      modifies this, host
      ensures Performed(TimerEffect(old(View()), now, host.reliable))
    {
      assert host.outbox + [] == host.outbox;
      match state {
        case SynSent => RunSynSent(now);
        case SynRcvd => RunSynRcvd(now);
        case FinSent => RunFinSent(now);
        case Established => RunEstablished(now);
        case Closed =>
      }
    }

    method RunEstablished(now: nat)
      requires Valid() && state.Established?
      modifies this, host
      ensures Performed(TimerEffect(old(View()), now, host.reliable))
    {
      ghost var sent := TransmitFrom(View(), 0, now);
      Transmit(now);
      RunKeepalive(now);
      ghost var alive := KeepaliveEffect(sent.con, now, host.reliable);
      PushNotesAppend(old(host.events), host.eventCapacity, slot, sent.notes, alive.notes);
      assert (old(host.outbox) + sent.sent) + alive.sent == old(host.outbox) + (sent.sent + alive.sent);
    }

    method RunSynSent(now: nat)
      requires Valid() && state.SynSent?
      modifies this, host
      ensures Performed(TimerEffect(old(View()), now, host.reliable))
    {
      assert host.outbox + [] == host.outbox;
      if time != 0 && now >= time {
        var tried := Attempt(now, Packet(SYN, 0, connId, seqNo, ackNo, []));
        if !tried {
          state := Closed;
          host.PushEvent(slot, Disconnected(Timeout));
        }
      }
    }

    method RunSynRcvd(now: nat)
      requires Valid() && state.SynRcvd?
      modifies this, host
      ensures Performed(TimerEffect(old(View()), now, host.reliable))
    {
      assert host.outbox + [] == host.outbox;
      if time != 0 && now >= time {
        var tried := Attempt(now, Packet(SYN_ACK, 0, connId, seqNo, ackNo, []));
        if !tried {
          state := Closed;
        }
      }
    }

    method RunFinSent(now: nat)
      requires Valid() && state.FinSent?
      modifies this, host
      ensures Performed(TimerEffect(old(View()), now, host.reliable))
    {
      assert host.outbox + [] == host.outbox;
      if time != 0 && now >= time {
        var tried := Attempt(now, Packet(FIN, 0, connId, 0, 0, []));
        if !tried {
          CloseBy(Timeout);
        }
      }
    }

    /** Sends the head of every send queue whose timer has run out, editing it in place. */
    method Transmit(now: nat)
      requires Valid() && state.Established?
      modifies this, host
      ensures Performed(TransmitFrom(old(View()), 0, now))
      ensures Valid() && state.Established?
    {
      ghost var all := TransmitFrom(View(), 0, now);
      ghost var done := Nothing(View());
      assert host.outbox + [] == host.outbox && Then(done, all) == all;
      for ch := 0 to |host.reliable|
        invariant Valid() && state.Established? && Performed(done)
        invariant all == Then(done, TransmitFrom(done.con, ch, now))
      {
        ghost var one := Endpoint.TransmitOne(View(), ch, now);
        TransmitUnfolds(View(), ch, now);
        ThenAssociates(done, one, TransmitFrom(one.con, ch + 1, now));
        AppendAssociates(old(host.outbox), done.sent, one.sent);
        PushNotesAppend(old(host.events), host.eventCapacity, slot, done.notes, one.notes);
        TransmitOne(ch, now);
        done := Then(done, one);
      }
      assert all == done;
    }

    method TransmitOne(ch: nat, now: nat)
      requires Valid() && state.Established? && ch < |host.reliable|
      modifies this`channels, this`lossCount, host`events, host`outbox
      ensures Performed(Endpoint.TransmitOne(old(View()), ch, now))
      ensures Valid()
    {
      var chan := channels.value[ch];
      assert channels.value[ch := chan] == channels.value && host.outbox + [] == host.outbox;
      if chan.sendQueue == [] {
        return;
      }
      var head := chan.sendQueue[0];
      if head.timestamp != 0 && now >= head.timestamp {
        host.SendTo(peer, head.packet);
        if !chan.reliable {
          channels := Some(channels.value[ch := chan.(sendQueue := chan.sendQueue[1..])]);
          return;
        }
        head := head.(timestamp := now + RETRANSMISSION_TIMEOUT, retransmits := head.retransmits + 1);
        if head.retransmits > MAX_RETRY {
          lossCount := lossCount + 1;
          head := head.(retransmits := 0);
          host.PushEvent(slot, Stalled(head.packet.seqNo));
        }
        channels := Some(channels.value[ch := chan.(sendQueue := chan.sendQueue[0 := head])]);
      }
    }

    method RunKeepalive(now: nat)
      requires Valid()
      modifies this, host
      ensures Performed(KeepaliveEffect(old(View()), now, host.reliable))
    {
      assert host.outbox + [] == host.outbox;
      if keepalive != 0 && now >= keepalive {
        if keepaliveRetry > KEEPALIVE_RETRY {
          CloseBy(Timeout);
        } else {
          host.SendTo(peer, Packet(PING, 0, connId, (now / 0x1_0000_0000) % 0x1_0000_0000, now % 0x1_0000_0000, []));
          keepalive := now + KEEPALIVE_TIME * (keepaliveRetry + 1);
          keepaliveRetry := keepaliveRetry + 1;
        }
      }
    }
  }

  /** The configuration of a context. */
  datatype Config = Config(
    bindPort: bool, maxConnections: U16, reliable: Reliabilities, eventQueueLength: U16, address: Addr)

  /** The channels a context is configured with are counted in eight bits. */
  type Reliabilities = r: seq<bool> | |r| <= 255 witness []

  class Context {
    const host: Host
    const conns: seq<Connection>
    const iss: U32
    const server: Addr
    var clientId: U16
    var clientGen: U16

    /** A context of `slots` zeroed connections; with none it is of no use. */
    constructor (slots: nat, reliable: seq<bool>, eventCapacity: nat, iss: U32, server: Addr)
      requires 1 <= |reliable| <= 255
      ensures fresh(host) && fresh(conns) && (Valid() <==> slots >= 1)
      ensures View() == Created(slots, reliable, eventCapacity, iss, server)
    {
      var h := new Host(reliable, eventCapacity);
      var cs := Context.NewConnections(h, slots);
      host, conns := h, cs;
      this.iss, this.server := iss, server;
      clientId, clientGen := 1, 0;
      new;
      assert Conns() == seq(slots, i => ZEROED);
    }

    static method NewConnections(h: Host, slots: nat) returns (cs: seq<Connection>)
      ensures |cs| == slots && fresh(cs)
      ensures forall i :: 0 <= i < slots ==> cs[i].slot == i && cs[i].host == h && cs[i].View() == ZEROED
    {
      cs := [];
      for i := 0 to slots
        invariant |cs| == i && fresh(cs)
        invariant forall j :: 0 <= j < i ==> cs[j].slot == j && cs[j].host == h && cs[j].View() == ZEROED
      {
        var c := new Connection(h, i);
        cs := cs + [c];
      }
    }

    /** What creation depends on; the last two say whether memory and the socket were to be had. */
    static method Create(config: Config, iss: U32, memory: bool, socket: bool) returns (c: Context?)
      ensures c == null <==> config.reliable == [] || !memory || !socket
      ensures c != null ==> fresh(c) && fresh(c.host) && fresh(c.conns)
      ensures c != null ==> (c.Valid() <==> !config.bindPort || config.maxConnections >= 1)
      ensures c != null ==>
        c.View() == Created(if config.bindPort then config.maxConnections else 1, config.reliable,
                            if config.eventQueueLength == 0 then 1024 else config.eventQueueLength, iss, config.address)
    {
      if config.reliable == [] || !memory || !socket {
        return null;
      }
      var slots := 1;
      if config.bindPort {
        slots := config.maxConnections;
      }
      var capacity := config.eventQueueLength;
      if capacity == 0 {
        capacity := 1024;
      }
      c := new Context(slots, config.reliable, capacity, iss, config.address);
    }

    /** Frees the channels of every connection that still has some. */
    method Destroy()
      requires Valid()
      modifies conns, host
      ensures Conns() == Released(old(Conns()), |conns|)
      ensures host.blocks == old(host.blocks) - Held(old(Conns()), host.reliable)
    {
      ghost var before := Conns();
      for i := 0 to |conns|
        invariant forall j :: 0 <= j < |conns| ==> conns[j].slot == j && conns[j].host == host
        invariant Conns() == Released(before, i)
        invariant host.blocks == old(host.blocks) - Held(before[..i], host.reliable)
      {
        assert before[..i + 1][..i] == before[..i];
        conns[i].FreeChannels();
        OnlyAfter(before, i);
      }
      assert before[..|conns|] == before;
    }

    /** Slot `i` is the next one released. */
    lemma OnlyAfter(before: seq<Conn>, i: nat)
      requires |before| == |conns| && i < |conns|
      requires forall j :: 0 <= j < |conns| && j != i ==> conns[j].View() == Released(before, i)[j]
      requires conns[i].View() == before[i].(channels := None)
      ensures Conns() == Released(before, i + 1)
    {
    }

    /** Every connection knows its slot, so no two slots share one. */
    ghost predicate Valid()
      reads this, host, conns
    {
      && (forall i :: 0 <= i < |conns| ==> conns[i].slot == i && conns[i].host == host)
      && CtxOk(View())
    }

    ghost function Conns(): (r: seq<Conn>)
      reads conns
      ensures |r| == |conns| && forall i :: 0 <= i < |conns| ==> r[i] == conns[i].View()
    {
      seq(|conns|, i requires 0 <= i < |conns| reads conns => conns[i].View())
    }

    ghost function View(): Ctx
      reads this, host, conns
    {
      Ctx(Conns(), host.reliable, host.events, host.eventCapacity, clientId, clientGen, iss, server, host.blocks)
    }

    /** The context changed, and the socket was given packets, as `o` says. */
    twostate predicate Performed(o: Outcome)
      reads this, host, conns
    {
      View() == o.ctx && host.outbox == old(host.outbox) + o.sent
    }

    // ---------- Looking connections up ----------

    method FindConn(id: ConnId) returns (slot: Option<nat>)
      ensures slot == FindById(Conns(), id)
    {
      for i := 0 to |conns|
        invariant forall j :: 0 <= j < i ==> conns[j].connId != id
      {
        if conns[i].connId == id {
          return Some(i);
        }
      }
      return None;
    }

    method FindConnByAddr(addr: Addr) returns (slot: Option<nat>)
      ensures slot == FindByAddr(Conns(), addr)
    {
      for i := 0 to |conns|
        invariant forall j :: 0 <= j < i ==> conns[j].peer != addr
      {
        if conns[i].peer == addr {
          return Some(i);
        }
      }
      return None;
    }

    /** The first closed slot, cleared for a new connection. */
    method FindEmptyConn() returns (slot: Option<nat>)
      requires Valid()
      modifies conns
      ensures Valid() && slot == FindClosed(old(Conns()))
      ensures slot.None? ==> View() == old(View())
      ensures slot.Some? ==>
        View() == old(View()).(conns := old(Conns())[slot.value := old(conns[slot.value].View()).(
          connId := ConnId(0, 0), retry := 0, channels := None, time := 0)])
    {
      for i := 0 to |conns|
        invariant forall j :: 0 <= j < i ==> !conns[j].state.Closed?
        invariant forall j :: 0 <= j < |conns| ==> unchanged(conns[j])
      {
        var con := conns[i];
        if con.state.Closed? {
          con.connId, con.retry, con.channels, con.time := ConnId(0, 0), 0, None, 0;
          OnlySlot(i);
          return Some(i);
        }
      }
      return None;
    }

    /** Only the connection in slot `i` changed. */
    twostate lemma OnlySlot(i: nat)
      requires i < |conns| && forall j :: 0 <= j < |conns| ==> conns[j].slot == j
      requires forall j :: 0 <= j < |conns| && j != i ==> unchanged(conns[j])
      ensures Conns() == old(Conns())[i := conns[i].View()]
    {
    }

    method GenerateClientId() returns (id: ConnId)
      modifies this`clientId
      ensures (id, clientId) == Endpoint.GenerateClientId(old(clientId), clientGen)
    {
      id := ConnId(clientGen, clientId);
      clientId := (clientId + 1) % 0x1_0000;
      if clientId == 0xFFFF {
        clientId := 0;
        id := id.(generation := (id.generation + 1) % 0x1_0000);
      }
    }

    // ---------- Packets ----------

    /** The connection a SYN belongs to, taking and numbering a closed slot if it has none. */
    method AssignSlot(p: Packet, from: Addr) returns (slot: Option<nat>)
      requires Valid()
      modifies this`clientId, conns
      ensures Valid() && (View(), slot) == Endpoint.AssignSlot(old(View()), p, from)
    {
      slot := FindConnByAddr(from);
      if slot.None? {
        slot := TakeClosed(p.seqNo);
      }
    }

    method TakeClosed(ack: U32) returns (slot: Option<nat>)
      requires Valid()
      modifies this`clientId, conns
      ensures Valid() && slot == FindClosed(old(Conns()))
      ensures slot.None? ==> View() == old(View())
      ensures slot.Some? ==>
        var (id, next) := Endpoint.GenerateClientId(old(clientId), clientGen);
        View() == old(View()).(
          conns := old(Conns())[slot.value := old(conns[slot.value].View()).(
            retry := 0, channels := None, time := 0, connId := id, seqNo := iss, ackNo := ack)],
          clientId := next)
    {
      slot := FindEmptyConn();
      if slot.Some? {
        ghost var cleared := conns[slot.value].View();
        Number(slot.value, ack);
        ghost var numbered := conns[slot.value].View();
        assert old(Conns())[slot.value := cleared][slot.value := numbered] == old(Conns())[slot.value := numbered];
      }
    }

    /** A new identifier and first counters for the connection in one slot. */
    method Number(slot: nat, ack: U32)
      requires Valid() && slot < |conns|
      modifies this`clientId, conns
      ensures Valid()
      ensures var (id, next) := Endpoint.GenerateClientId(old(clientId), clientGen);
              View() == old(View()).(
                conns := old(Conns())[slot := old(conns[slot].View()).(connId := id, seqNo := iss, ackNo := ack)],
                clientId := next)
    {
      var id := GenerateClientId();
      var con := conns[slot];
      con.connId, con.seqNo, con.ackNo := id, iss, ack;
      OnlySlot(slot);
    }

    method OnSyn(p: Packet, from: Addr, now: nat)
      requires Valid()
      modifies this, host, conns
      ensures Valid() && Performed(Endpoint.OnSyn(old(View()), p, from, now))
    {
      OnSynOk(View(), p, from, now);
      var slot := AssignSlot(p, from);
      if slot.None? {
        host.SendTo(from, Packet(RST, 0, UNASSIGNED, 0, 0, []));
      } else {
        label placed:
        conns[slot.value].OnSyn(from, now);
        OnlySlot@placed(slot.value);
      }
    }

    /** The handlers that look the connection up by its identifier. */
    method OnAddressed(p: Packet, from: Addr, now: nat, sendOk: bool)
      requires Valid() && IsAddressed(p)
      modifies this, host, conns
      ensures Valid() && Performed(Endpoint.OnAddressed(old(View()), p, from, now, sendOk))
    {
      assert host.outbox + [] == host.outbox;
      var slot := FindConn(p.connId);
      if slot.Some? {
        Handle(slot.value, p, from, now, sendOk);
      }
    }

    method Handle(slot: nat, p: Packet, from: Addr, now: nat, sendOk: bool)
      requires Valid() && IsAddressed(p) && slot < |conns|
      modifies this, host, conns
      ensures Valid()
      ensures Performed(Install(old(View()), slot,
                AddressedEffect(old(conns[slot].View()), p, from, now, sendOk, host.reliable)))
    {
      AddressedEffectOk(conns[slot].View(), p, from, now, sendOk, host.reliable);
      InstallOk(View(), slot, AddressedEffect(conns[slot].View(), p, from, now, sendOk, host.reliable));
      Dispatch(conns[slot], p, from, now, sendOk);
      OnlySlot(slot);
    }

    method Dispatch(con: Connection, p: Packet, from: Addr, now: nat, sendOk: bool)
      requires con.Valid() && IsAddressed(p)
      modifies con, con.host
      ensures con.Performed(AddressedEffect(old(con.View()), p, from, now, sendOk, con.host.reliable))
    {
      if p.ctrl == ACK {
        con.OnAck(p, now);
      } else if p.ctrl == FIN {
        con.OnFin(sendOk);
      } else if p.ctrl == FIN_ACK {
        con.OnFinAck();
      } else if p.ctrl == DATA {
        con.OnData(p, from);
      } else if p.ctrl == DATA_ACK {
        con.OnDataAck(p);
      } else if p.ctrl == PONG {
        con.OnPong(now);
      } else {
        con.OnRst();
      }
    }

    method Receive(p: Packet, from: Addr, now: nat, sendOk: bool)
      requires Valid()
      modifies this, host, conns
      ensures Valid() && Performed(Endpoint.Receive(old(View()), p, from, now, sendOk))
    {
      ReceiveOk(View(), p, from, now, sendOk);
      assert host.outbox + [] == host.outbox;
      if p.ctrl == SYN && p.connId.id == 0xFFFF {
        OnSyn(p, from, now);
      } else if p.ctrl == SYN_ACK {
        conns[0].OnSynAck(p, now, sendOk);
        OnlySlot(0);
      } else if p.ctrl == PING {
        host.SendTo(from, p.(ctrl := PONG, payload := []));
      } else if IsAddressed(p) {
        OnAddressed(p, from, now, sendOk);
      }
    }

    // ---------- A tick ----------

    /** Reads until the socket is empty or enough packets were handled; garbage does not count. */
    method ReceiveLoop(inbox: seq<Arrival>) returns (consumed: nat)
      requires Valid()
      modifies this, host, conns
      ensures consumed == Consumed(inbox, RECV_LIMIT_PER_TICK)
      ensures Valid() && Performed(ReceiveAll(old(View()), inbox[..consumed]))
    {
      ghost var n := Consumed(inbox, RECV_LIMIT_PER_TICK);
      ghost var all := ReceiveAll(View(), inbox[..n]);
      ghost var done := Outcome(View(), []);
      InboxStarts(View(), inbox);
      assert host.outbox + [] == host.outbox;
      var handled := 0;
      consumed := 0;
      while handled < RECV_LIMIT_PER_TICK && consumed < |inbox|
        invariant InboxLeft(all, done, inbox, consumed, n, handled)
        invariant Valid() && Performed(done)
        decreases |inbox| - consumed
      {
        InboxAdvances(all, done, inbox, consumed, n, handled);
        ghost var one := ReceiveOne(done.ctx, inbox[consumed]);
        AppendAssociates(old(host.outbox), done.sent, one.sent);
        var valid := ReceiveNext(inbox[consumed]);
        done := Followed(done, one);
        if valid {
          handled := handled + 1;
        }
        consumed := consumed + 1;
      }
      InboxEnds(all, done, inbox, consumed, n, handled);
    }

    method ReceiveNext(next: Arrival) returns (valid: bool)
      requires Valid()
      modifies this, host, conns
      ensures valid == next.Valid?
      ensures Valid() && Performed(ReceiveOne(old(View()), next))
    {
      assert host.outbox + [] == host.outbox;
      valid := next.Valid?;
      if valid {
        Receive(next.packet, next.from, next.now, next.sendOk);
      }
    }

    /** The timers of every connection, in slot order. */
    method RunTimers(now: nat)
      requires Valid()
      modifies this, host, conns
      ensures Valid() && Performed(TimersFrom(old(View()), 0, now))
    {
      ghost var all := TimersFrom(View(), 0, now);
      ghost var done := Outcome(View(), []);
      TimersStart(View(), now);
      assert host.outbox + [] == host.outbox;
      for slot := 0 to |conns|
        invariant Valid() && Performed(done)
        invariant TimersLeft(all, done, slot, now)
      {
        TimersAdvance(all, done, slot, now);
        ghost var one := TimerOutcome(done.ctx, slot, now);
        AppendAssociates(old(host.outbox), done.sent, one.sent);
        RunTimersOf(slot, now);
        done := Followed(done, one);
      }
      TimersEnd(all, done, now);
    }

    method RunTimersOf(slot: nat, now: nat)
      requires Valid() && slot < |conns|
      modifies this, host, conns
      ensures Valid() && Performed(TimerOutcome(old(View()), slot, now))
    {
      TimerOutcomeOk(View(), slot, now);
      conns[slot].RunTimers(now);
      OnlySlot(slot);
    }

    method Tick(inbox: seq<Arrival>, now: nat) returns (consumed: nat)
      requires Valid()
      modifies this, host, conns
      ensures consumed == Consumed(inbox, RECV_LIMIT_PER_TICK)
      ensures Valid() && Performed(Endpoint.Tick(old(View()), inbox, now))
    {
      consumed := ReceiveLoop(inbox);
      RunTimers(now);
    }

    // ---------- The public interface ----------

    method Connect(now: nat, addrOk: bool) returns (code: Code)
      requires Valid()
      modifies conns
      ensures Valid() && (View(), code) == Endpoint.Connect(old(View()), now, addrOk)
    {
      code := conns[0].Connect(iss, server, now, addrOk);
      OnlySlot(0);
    }

    method Close(slot: nat, now: nat) returns (code: Code)
      requires Valid() && slot < |conns|
      modifies conns
      ensures Valid() && (View(), code) == Endpoint.Close(old(View()), slot, now)
    {
      var con := conns[slot];
      if !con.state.Established? {
        return ConnectionClosed;
      }
      con.state, con.retry, con.time := FinSent, 0, now;
      OnlySlot(slot);
      return Success;
    }

    method Send(slot: nat, channel: U8, data: Payload, now: nat) returns (code: Code)
      requires Valid() && slot < |conns|
      modifies conns
      ensures Valid() && (View(), code) == Endpoint.Send(old(View()), slot, channel, data, now)
    {
      SendOk(View(), slot, channel, data, now);
      if |data| == 0 || channel >= |host.reliable| {
        return InvalidArgument;
      }
      if |data| > MTU {
        return MessageTooLong;
      }
      var con := conns[slot];
      if !con.state.Established? {
        return ConnectionClosed;
      }
      var chan := con.channels.value[channel];
      var packet := Packet(DATA, channel, con.connId, chan.seqNo, chan.ackNo, data);
      if |chan.sendQueue| >= QUEUE_CAPACITY {
        return QueueFull;
      }
      chan := chan.(sendQueue := chan.sendQueue + [Entry(packet, now, 0)]);
      chan := chan.(seqNo := Next32(chan.seqNo));
      con.channels := Some(con.channels.value[channel := chan]);
      OnlySlot(slot);
      return Success;
    }

    method PollEvent() returns (event: Option<Event>)
      requires Valid()
      modifies host`events
      ensures Valid() && (View(), event) == Endpoint.PollEvent(old(View()))
    {
      if host.events == [] {
        return None;
      }
      event := Some(host.events[0]);
      host.events := host.events[1..];
    }

    method PopData(slot: nat, channel: U8, buflen: nat) returns (code: Code, data: Payload)
      requires Valid() && slot < |conns| && conns[slot].channels.Some?
      modifies conns
      ensures Valid() && (View(), code, data) == Endpoint.PopData(old(View()), slot, channel, buflen)
    {
      PopDataOk(View(), slot, channel, buflen);
      if buflen == 0 || channel >= |host.reliable| {
        return InvalidArgument, [];
      }
      var con := conns[slot];
      var chan := con.channels.value[channel];
      if chan.recvQueue == [] {
        return QueueEmpty, [];
      }
      if buflen < |chan.recvQueue[0].payload| {
        return InvalidArgument, [];
      }
      data := chan.recvQueue[0].payload;
      con.channels := Some(con.channels.value[channel := chan.(recvQueue := chan.recvQueue[1..])]);
      OnlySlot(slot);
      code := Success;
    }
  }
}
