/**
 Channel memory. The first half is the allocation of a channel array with its unwinding when memory runs
 out; the second says when the blocks allocated are exactly those the live connections own.
 */
module Allocation {
  import opened Wrappers
  import opened Protocol
  import opened Endpoint
  import opened Runs
  import opened Node

  // ---------- Creating and freeing a channel array ----------

  /** An allocator whose `k`-th request succeeds if `grants(k)`. */
  class Allocator {
    const grants: nat -> bool
    var requests: nat
    var live: set<nat>
    var next: nat

    /** Addresses are handed out once. */
    ghost predicate Valid()
      reads this
    {
      forall p :: p in live ==> p < next
    }

    constructor (grants: nat -> bool)
      ensures Valid() && live == {} && requests == 0 && this.grants == grants
    {
      this.grants := grants;
      requests, live, next := 0, {}, 0;
    }

    method Malloc() returns (p: Option<nat>)
      requires Valid()
      modifies this
      ensures Valid() && requests == old(requests) + 1
      ensures p.Some? <==> grants(old(requests))
      ensures p.Some? ==> p.value !in old(live) && live == old(live) + {p.value}
      ensures p.None? ==> live == old(live)
    {
      requests := requests + 1;
      if !grants(requests - 1) {
        return None;
      }
      p := Some(next);
      live := live + {next};
      next := next + 1;
    }

    method Free(p: nat)
      requires Valid() && p in live
      modifies this`live
      ensures Valid() && live == old(live) - {p}
    {
      live := live - {p};
    }

    /** Freeing nothing does nothing. */
    method FreeQueue(p: Option<nat>)
      requires Valid() && (p.Some? ==> p.value in live)
      modifies this`live
      ensures Valid() && live == old(live) - Block(p)
    {
      if p.Some? {
        Free(p.value);
      }
    }
  }

  function Block(p: Option<nat>): set<nat> {
    if p.Some? then {p.value} else {}
  }

  /** The send and the receive queue of one channel. */
  datatype Queues = Queues(send: Option<nat>, recv: Option<nat>)

  function QueueBlocks(queues: seq<Queues>): set<nat> {
    if queues == [] then {}
    else QueueBlocks(queues[..|queues| - 1]) + Block(queues[|queues| - 1].send) + Block(queues[|queues| - 1].recv)
  }

  /** No block belongs to two queues, and all are live. */
  ghost predicate Owned(queues: seq<Queues>, live: set<nat>) {
    if queues == [] then true
    else
      var front, last := queues[..|queues| - 1], queues[|queues| - 1];
      && Owned(front, live)
      && Block(last.send) !! Block(last.recv)
      && (Block(last.send) + Block(last.recv)) !! QueueBlocks(front)
      && Block(last.send) + Block(last.recv) <= live
  }

  lemma {:induction false} OwnedIsLive(queues: seq<Queues>, live: set<nat>)
    requires Owned(queues, live)
    ensures QueueBlocks(queues) <= live
    decreases |queues|
  {
    if queues != [] {
      OwnedIsLive(queues[..|queues| - 1], live);
    }
  }

  lemma {:induction false} OwnedElsewhere(queues: seq<Queues>, live: set<nat>, live': set<nat>)
    requires Owned(queues, live) && QueueBlocks(queues) <= live'
    ensures Owned(queues, live')
    decreases |queues|
  {
    if queues != [] {
      OwnedElsewhere(queues[..|queues| - 1], live, live');
    }
  }

  /** `1 + 2 * count` requests in a row are granted. */
  predicate AllGranted(grants: nat -> bool, from: nat, n: nat) {
    forall k :: from <= k < from + n ==> grants(k)
  }

  datatype Channels = Channels(block: nat, queues: seq<Queues>)

  function ChannelSet(c: Channels): set<nat> {
    {c.block} + QueueBlocks(c.queues)
  }

  ghost predicate AllAllocated(queues: seq<Queues>) {
    forall i :: 0 <= i < |queues| ==> queues[i].send.Some? && queues[i].recv.Some?
  }

  lemma {:induction false} CountBlocks(queues: seq<Queues>, live: set<nat>)
    requires Owned(queues, live) && AllAllocated(queues)
    ensures |QueueBlocks(queues)| == 2 * |queues|
    decreases |queues|
  {
    if queues != [] {
      var front, last := queues[..|queues| - 1], queues[|queues| - 1];
      CountBlocks(front, live);
      assert QueueBlocks(queues) == QueueBlocks(front) + {last.send.value} + {last.recv.value};
    }
  }

  function PairBlocks(q: Queues): set<nat> {
    Block(q.send) + Block(q.recv)
  }

  lemma OwnedExtends(front: seq<Queues>, q: Queues, live: set<nat>, live': set<nat>)
    requires Owned(front, live) && live' == live + PairBlocks(q) && PairBlocks(q) !! live && Block(q.send) !! Block(q.recv)
    ensures Owned(front + [q], live')
    ensures QueueBlocks(front + [q]) == QueueBlocks(front) + PairBlocks(q)
  {
    assert (front + [q])[..|front|] == front;
    OwnedIsLive(front, live);
    OwnedElsewhere(front, live, live');
  }

  /** An array being built: the blocks taken since `before` are the array's and its queues', all distinct. */
  ghost predicate Building(before: set<nat>, block: nat, queues: seq<Queues>, live: set<nat>) {
    && Owned(queues, live)
    && ({block} + QueueBlocks(queues)) !! before && block !in QueueBlocks(queues)
    && live == before + {block} + QueueBlocks(queues)
  }

  lemma BuildingExtends(before: set<nat>, block: nat, queues: seq<Queues>, q: Queues, live: set<nat>, live': set<nat>)
    requires Building(before, block, queues, live)
    requires live' == live + PairBlocks(q) && PairBlocks(q) !! live && Block(q.send) !! Block(q.recv)
    ensures Building(before, block, queues + [q], live')
  {
    OwnedExtends(queues, q, live, live');
  }

  lemma BuildingUndone(before: set<nat>, block: nat, queues: seq<Queues>, live: set<nat>)
    requires Building(before, block, queues, live)
    ensures block in live && live - ({block} + QueueBlocks(queues)) == before
  {
  }

  /** Both queues of a channel are requested, even if the first is refused. */
  method InitQueues(a: Allocator) returns (q: Queues)
    requires a.Valid()
    modifies a
    ensures a.Valid() && a.requests == old(a.requests) + 2
    ensures q.send.Some? && q.recv.Some? <==> AllGranted(a.grants, old(a.requests), 2)
    ensures PairBlocks(q) !! old(a.live) && Block(q.send) !! Block(q.recv)
    ensures a.live == old(a.live) + PairBlocks(q)
  {
    var send := a.Malloc();
    var recv := a.Malloc();
    q := Queues(send, recv);
    assert a.grants(old(a.requests)) == send.Some? && a.grants(old(a.requests) + 1) == recv.Some?;
  }

  lemma GrantedPlusTwo(grants: nat -> bool, from: nat, n: nat)
    ensures AllGranted(grants, from, n + 2) <==> AllGranted(grants, from, n) && AllGranted(grants, from + n, 2)
  {
    if AllGranted(grants, from, n) && AllGranted(grants, from + n, 2) {
      assert grants(from + n) && grants(from + n + 1);
    }
  }

  lemma RefusedOnce(grants: nat -> bool, from: nat, n: nat, m: nat)
    requires n <= m && !AllGranted(grants, from, n)
    ensures !AllGranted(grants, from, m)
  {
    var k :| from <= k < from + n && !grants(k);
  }

  /** The size and the separation of a complete array. */
  lemma CompleteArray(block: nat, queues: seq<Queues>, live: set<nat>)
    requires Owned(queues, live) && AllAllocated(queues) && block !in QueueBlocks(queues)
    ensures |ChannelSet(Channels(block, queues))| == 1 + 2 * |queues|
  {
    CountBlocks(queues, live);
    assert {block} + QueueBlocks(queues) == QueueBlocks(queues) + {block};
  }

  /**
   Allocates the array and two queues a channel. It succeeds exactly when every request does; otherwise
   every block it took is given back.
   */
  method CreateConChannels(a: Allocator, count: nat) returns (channels: Option<Channels>)
    requires a.Valid()
    modifies a
    ensures a.Valid()
    ensures channels.Some? <==> AllGranted(a.grants, old(a.requests), 1 + 2 * count)
    ensures channels.Some? ==>
      var c := channels.value;
      && Building(old(a.live), c.block, c.queues, a.live)
      && |ChannelSet(c)| == 1 + 2 * count && |c.queues| == count && AllAllocated(c.queues)
    ensures channels.None? ==> a.live == old(a.live)
  {
    var block := a.Malloc();
    if block.None? {
      assert !a.grants(old(a.requests));
      return None;
    }
    var queues: seq<Queues> := [];
    for i := 0 to count
      invariant a.Valid() && |queues| == i && AllAllocated(queues)
      invariant a.requests == old(a.requests) + 1 + 2 * i
      invariant AllGranted(a.grants, old(a.requests), 1 + 2 * i)
      invariant Building(old(a.live), block.value, queues, a.live)
    {
      ghost var live := a.live;
      GrantedPlusTwo(a.grants, old(a.requests), 1 + 2 * i);
      var q := InitQueues(a);
      BuildingExtends(old(a.live), block.value, queues, q, live, a.live);
      queues := queues + [q];
      if q.send.None? || q.recv.None? {
        RefusedOnce(a.grants, old(a.requests), 3 + 2 * i, 1 + 2 * count);
        BuildingUndone(old(a.live), block.value, queues, a.live);
        Unwind(a, block.value, queues);
        return None;
      }
    }
    CompleteArray(block.value, queues, a.live);
    channels := Some(Channels(block.value, queues));
  }

  /** Gives back what a failed creation took. */
  method Unwind(a: Allocator, block: nat, queues: seq<Queues>)
    requires a.Valid() && Owned(queues, a.live) && block in a.live && block !in QueueBlocks(queues)
    modifies a`live
    ensures a.Valid() && a.live == old(a.live) - ({block} + QueueBlocks(queues))
  {
    FreeQueues(a, queues);
    a.Free(block);
  }

  /** Frees the queues of `queues`, first to last. */
  method FreeQueues(a: Allocator, queues: seq<Queues>)
    requires a.Valid() && Owned(queues, a.live)
    modifies a`live
    ensures a.Valid() && a.live == old(a.live) - QueueBlocks(queues)
  {
    for j := 0 to |queues|
      invariant a.Valid() && a.live == old(a.live) - QueueBlocks(queues[..j])
    {
      assert queues[..j + 1][..j] == queues[..j];
      OwnedPrefix(queues, old(a.live), j + 1);
      a.FreeQueue(queues[j].send);
      a.FreeQueue(queues[j].recv);
    }
    assert queues[..|queues|] == queues;
  }

  lemma {:induction false} OwnedPrefix(queues: seq<Queues>, live: set<nat>, n: nat)
    requires Owned(queues, live) && n <= |queues|
    ensures Owned(queues[..n], live)
    decreases |queues| - n
  {
    if n < |queues| {
      OwnedPrefix(queues[..|queues| - 1], live, n);
      assert queues[..|queues| - 1][..n] == queues[..n];
    } else {
      assert queues[..n] == queues;
    }
  }

  /** Gives back exactly the blocks of the array. */
  method FreeConChannels(a: Allocator, channels: Option<Channels>) returns (freed: bool)
    requires a.Valid()
    requires channels.Some? ==>
      var c := channels.value; Owned(c.queues, a.live) && c.block in a.live && c.block !in QueueBlocks(c.queues)
    modifies a`live
    ensures a.Valid() && freed == channels.Some?
    ensures a.live == if freed then old(a.live) - ChannelSet(channels.value) else old(a.live)
  {
    freed := channels.Some?;
    if freed {
      Unwind(a, channels.value.block, channels.value.queues);
    }
  }

  // ---------- The balance of a context ----------

  predicate HoldsChannels(con: Conn) {
    con.state.Established? || con.state.FinSent?
  }

  function OwedBy(con: Conn, reliable: seq<bool>): nat {
    if HoldsChannels(con) then ChannelBlocks(reliable) else 0
  }

  /** One channel array for every connection that can carry data. */
  function Owed(conns: seq<Conn>, reliable: seq<bool>): nat {
    if conns == [] then 0 else OwedBy(conns[0], reliable) + Owed(conns[1..], reliable)
  }

  lemma {:induction false} OwedReplaced(conns: seq<Conn>, reliable: seq<bool>, i: nat, con: Conn)
    requires i < |conns|
    ensures Owed(conns[i := con], reliable) == Owed(conns, reliable) - OwedBy(conns[i], reliable) + OwedBy(con, reliable)
    decreases |conns|
  {
    if i > 0 {
      assert conns[i := con][1..] == conns[1..][i - 1 := con];
      OwedReplaced(conns[1..], reliable, i - 1, con);
    } else {
      assert conns[i := con][1..] == conns[1..];
    }
  }

  /** Nobody holds channels it does not need. */
  predicate Clean(con: Conn) {
    con.channels.Some? <==> HoldsChannels(con)
  }

  /** Every block allocated belongs to a connection that carries data. */
  ghost predicate Tidy(c: Ctx) {
    && c.blocks == Owed(c.conns, c.reliable)
    && forall i :: 0 <= i < |c.conns| ==> Clean(c.conns[i])
  }

  ghost predicate TidyEffect(con: Conn, e: Effect, reliable: seq<bool>) {
    Clean(e.con) && e.blocks == OwedBy(e.con, reliable) - OwedBy(con, reliable)
  }

  lemma InstallTidyIff(c: Ctx, slot: nat, e: Effect)
    requires Tidy(c) && slot < |c.conns|
    ensures Tidy(Install(c, slot, e).ctx) <==> TidyEffect(c.conns[slot], e, c.reliable)
  {
    OwedReplaced(c.conns, c.reliable, slot, e.con);
    var c' := Install(c, slot, e).ctx;
    if Tidy(c') {
      assert Clean(c'.conns[slot]);
    }
  }

  // ---------- What loses memory ----------

  /** The packets after which channel memory is not where it should be. */
  predicate LeakingPacket(c: Ctx, p: Packet, from: Addr, sendOk: bool)
    requires |c.conns| >= 1
  {
    if p.ctrl == SYN && p.connId.id == 0xFFFF then
      var known := FindByAddr(c.conns, from); known.Some? && c.conns[known.value].state.FinSent?
    else if p.ctrl == SYN_ACK then
      c.conns[0].state.FinSent? || (!c.conns[0].state.Established? && !sendOk)
    else if p.ctrl == RST then
      var slot := FindById(c.conns, p.connId); slot.Some? && c.conns[slot.value].state.FinSent?
    else false
  }

  /** A reset, or a new handshake, of a connection that is closing; a handshake reply that cannot be sent; a
      connect of a connection that carries data. */
  predicate Leaking(c: Ctx, a: Action)
    requires |c.conns| >= 1
  {
    match a
    case Recv(p, from, sendOk) => LeakingPacket(c, p, from, sendOk)
    case ConnectTo(addrOk) => addrOk && HoldsChannels(c.conns[0])
    case _ => false
  }

  lemma SynTidyIff(c: Ctx, p: Packet, from: Addr, now: nat)
    requires CtxOk(c) && Tidy(c)
    ensures Tidy(OnSyn(c, p, from, now).ctx)
       <==> !(var known := FindByAddr(c.conns, from); known.Some? && c.conns[known.value].state.FinSent?)
  {
    var known := FindByAddr(c.conns, from);
    if known.Some? {
      assert Clean(c.conns[known.value]);
      InstallTidyIff(c, known.value, SynEffect(c.conns[known.value], from, now));
    } else if FindClosed(c.conns).Some? {
      var i := FindClosed(c.conns).value;
      var (placed, _) := AssignSlot(c, p, from);
      assert Clean(c.conns[i]) && Clean(placed.conns[i]);
      OwedReplaced(c.conns, c.reliable, i, placed.conns[i]);
      InstallTidyIff(placed, i, SynEffect(placed.conns[i], from, now));
    }
  }

  lemma SynAckTidyIff(con: Conn, p: Packet, now: nat, sendOk: bool, reliable: seq<bool>)
    requires ConnOk(con, reliable) && |reliable| >= 1 && Clean(con)
    ensures TidyEffect(con, SynAckEffect(con, p, now, sendOk, reliable), reliable)
       <==> !(con.state.FinSent? || (!con.state.Established? && !sendOk))
  {
  }

  lemma AddressedTidyIff(con: Conn, p: Packet, from: Addr, now: nat, sendOk: bool, reliable: seq<bool>)
    requires ConnOk(con, reliable) && IsAddressed(p) && Clean(con)
    ensures TidyEffect(con, AddressedEffect(con, p, from, now, sendOk, reliable), reliable)
       <==> !(p.ctrl == RST && con.state.FinSent?)
  {
  }

  /** A packet keeps the balance exactly when it is not one of those. */
  lemma ReceiveTidyIff(c: Ctx, p: Packet, from: Addr, now: nat, sendOk: bool)
    requires CtxOk(c) && Tidy(c)
    ensures Tidy(Receive(c, p, from, now, sendOk).ctx) <==> !LeakingPacket(c, p, from, sendOk)
  {
    if p.ctrl == SYN && p.connId.id == 0xFFFF {
      SynTidyIff(c, p, from, now);
    } else if p.ctrl == SYN_ACK {
      assert Clean(c.conns[0]);
      SynAckTidyIff(c.conns[0], p, now, sendOk, c.reliable);
      InstallTidyIff(c, 0, SynAckEffect(c.conns[0], p, now, sendOk, c.reliable));
    } else if p.ctrl != PING && IsAddressed(p) {
      var slot := FindById(c.conns, p.connId);
      if slot.Some? {
        var con := c.conns[slot.value];
        assert Clean(con);
        AddressedTidyIff(con, p, from, now, sendOk, c.reliable);
        InstallTidyIff(c, slot.value, AddressedEffect(con, p, from, now, sendOk, c.reliable));
      }
    }
  }

  lemma TimerTidy(con: Conn, now: nat, reliable: seq<bool>)
    requires ConnOk(con, reliable) && Clean(con)
    ensures TidyEffect(con, TimerEffect(con, now, reliable), reliable)
  {
    if con.state.Established? {
      TransmitFromOk(con, 0, now, reliable);
      TransmitKeepsBlocks(con, 0, now);
    }
  }

  lemma {:induction false} TimersTidy(c: Ctx, slot: nat, now: nat)
    requires CtxOk(c) && Tidy(c) && slot <= |c.conns|
    ensures Tidy(TimersFrom(c, slot, now).ctx)
    decreases |c.conns| - slot
  {
    if slot < |c.conns| {
      assert Clean(c.conns[slot]);
      TimerTidy(c.conns[slot], now, c.reliable);
      InstallTidyIff(c, slot, TimerEffect(c.conns[slot], now, c.reliable));
      TimerOutcomeOk(c, slot, now);
      TimersTidy(TimerOutcome(c, slot, now).ctx, slot + 1, now);
    }
  }

  /** A call of the application that changes one connection and allocates nothing. */
  lemma CallTidyIff(c: Ctx, slot: nat, con: Conn)
    requires Tidy(c) && slot < |c.conns|
    ensures Tidy(c.(conns := c.conns[slot := con])) <==> Clean(con) && OwedBy(con, c.reliable) == OwedBy(c.conns[slot], c.reliable)
  {
    InstallTidyIff(c, slot, Nothing(con));
    assert Install(c, slot, Nothing(con)).ctx == c.(conns := c.conns[slot := con]);
  }

  lemma ActTidyIff(n: Node, a: Action, now: nat)
    requires CtxOk(n.ctx) && ActionOk(n, a) && Tidy(n.ctx)
    ensures Tidy(Act(n, a, now).0.ctx) <==> !Leaking(n.ctx, a)
  {
    match a
    case Recv(p, from, sendOk) => ReceiveTidyIff(n.ctx, p, from, now, sendOk);
    case Timers => TimersTidy(n.ctx, 0, now);
    case ConnectTo(addrOk) =>
      assert Clean(n.ctx.conns[0]);
      CallTidyIff(n.ctx, 0, Connect(n.ctx, now, addrOk).0.conns[0]);
    case _ => QuietCallTidy(n, a, now);
  }

  lemma QuietCallTidy(n: Node, a: Action, now: nat)
    requires CtxOk(n.ctx) && ActionOk(n, a) && Tidy(n.ctx)
    requires a.SendData? || a.CloseConn? || a.Poll? || a.Pop?
    ensures Tidy(Act(n, a, now).0.ctx)
  {
    var c' := Act(n, a, now).0.ctx;
    if a.SendData? || a.CloseConn? || a.Pop? {
      assert Clean(n.ctx.conns[a.slot]);
      CallTidyIff(n.ctx, a.slot, c'.conns[a.slot]);
      assert c' == n.ctx || c' == n.ctx.(conns := n.ctx.conns[a.slot := c'.conns[a.slot]]);
    }
  }

  // ---------- Runs ----------

  /**
   After every run, leaking or not, a connection in ESTABLISHED or FIN_SENT has its channel array, complete,
   and no queue holds more than its capacity.
   */
  lemma ChannelsAreThere(nodes: seq<Node>, run: seq<Timed>, slots: nat, iss: U32, server: Addr, k: nat, i: nat)
    requires IsRun(AnyStep, nodes, run) && k < |nodes|
    requires var c := nodes[0].ctx; c == Created(slots, c.reliable, c.eventCapacity, iss, server)
    requires slots >= 1 && 1 <= |nodes[0].ctx.reliable| <= 255
    requires i < |nodes[k].ctx.conns| && HoldsChannels(nodes[k].ctx.conns[i])
    ensures var c, con := nodes[k].ctx, nodes[k].ctx.conns[i];
            && con.channels.Some? && |con.channels.value| == |c.reliable|
            && |c.events| <= c.eventCapacity
            && forall j :: 0 <= j < |c.reliable| ==>
                 |con.channels.value[j].sendQueue| <= QUEUE_CAPACITY && |con.channels.value[j].recvQueue| <= QUEUE_CAPACITY
  {
    assert Preserves(AnyStep, (n: Node) => CtxOk(n.ctx)) by {
      forall n: Node, t: Timed, n': Node | AnyStep(n, t, n') && CtxOk(n.ctx) ensures CtxOk(n'.ctx) {
        ActOk(n, t.action, t.now);
      }
    }
    InvariantHolds(AnyStep, (n: Node) => CtxOk(n.ctx), nodes, run, k);
    assert ConnOk(nodes[k].ctx.conns[i], nodes[k].ctx.reliable);
  }

  ghost predicate TidyStep(n: Node, t: Timed, n': Node) {
    AnyStep(n, t, n') && !Leaking(n.ctx, t.action)
  }

  /**
   After every run without a leaking step, what is allocated is one channel array for each connection in
   ESTABLISHED or FIN_SENT, and each of these has its array.
   */
  lemma NothingLeaks(nodes: seq<Node>, run: seq<Timed>, slots: nat, iss: U32, server: Addr, k: nat)
    requires IsRun(TidyStep, nodes, run) && k < |nodes|
    requires var c := nodes[0].ctx; c == Created(slots, c.reliable, c.eventCapacity, iss, server)
    ensures var c := nodes[k].ctx;
            && c.blocks == Owed(c.conns, c.reliable)
            && forall i :: 0 <= i < |c.conns| ==> Clean(c.conns[i])
  {
    OwedByNobody(slots, nodes[0].ctx.reliable);
    assert Preserves(TidyStep, (n: Node) => Tidy(n.ctx)) by {
      forall n: Node, t: Timed, n': Node | TidyStep(n, t, n') && Tidy(n.ctx) ensures Tidy(n'.ctx) {
        ActTidyIff(n, t.action, t.now);
      }
    }
    InvariantHolds(TidyStep, (n: Node) => Tidy(n.ctx), nodes, run, k);
  }

  lemma {:induction false} OwedByNobody(slots: nat, reliable: seq<bool>)
    ensures Owed(seq(slots, i => ZEROED), reliable) == 0
    decreases slots
  {
    if slots > 0 {
      assert seq(slots, i => ZEROED)[1..] == seq(slots - 1, i => ZEROED);
      OwedByNobody(slots - 1, reliable);
    }
  }

  /** And the first leaking step of a run always upsets the balance. */
  lemma LeakIsReal(nodes: seq<Node>, run: seq<Timed>, slots: nat, iss: U32, server: Addr, k: nat)
    requires IsRun(AnyStep, nodes, run) && k < |run|
    requires var c := nodes[0].ctx; c == Created(slots, c.reliable, c.eventCapacity, iss, server)
    requires forall j :: 0 <= j < k ==> CtxOk(nodes[j].ctx) && !Leaking(nodes[j].ctx, run[j].action)
    requires CtxOk(nodes[k].ctx) && Leaking(nodes[k].ctx, run[k].action)
    ensures !Tidy(nodes[k + 1].ctx)
  {
    forall j | 0 <= j < k ensures TidyStep(nodes[..k + 1][j], run[..k][j], nodes[..k + 1][j + 1]) {
      assert AnyStep(nodes[j], run[j], nodes[j + 1]);
    }
    NothingLeaks(nodes[..k + 1], run[..k], slots, iss, server, k);
    assert AnyStep(nodes[k], run[k], nodes[k + 1]);
    ActTidyIff(nodes[k], run[k].action, run[k].now);
  }

  // ---------- Destruction ----------

  lemma {:induction false} HeldIsOwed(conns: seq<Conn>, reliable: seq<bool>)
    requires forall i :: 0 <= i < |conns| ==> Clean(conns[i])
    ensures Held(conns, reliable) == Owed(conns, reliable)
    decreases |conns|
  {
    if conns != [] {
      var front, last := conns[..|conns| - 1], conns[|conns| - 1];
      HeldIsOwed(front, reliable);
      OwedAppend(front, [last], reliable);
      assert front + [last] == conns;
      assert Clean(last) && [last][1..] == [];
    }
  }

  lemma {:induction false} OwedAppend(a: seq<Conn>, b: seq<Conn>, reliable: seq<bool>)
    ensures Owed(a + b, reliable) == Owed(a, reliable) + Owed(b, reliable)
    decreases |a|
  {
    if a == [] {
      assert a + b == b;
    } else {
      assert (a + b)[1..] == a[1..] + b;
      OwedAppend(a[1..], b, reliable);
    }
  }

  /** After a run without a leaking step, destroying the context gives back every block. */
  lemma DestroyReturnsAll(nodes: seq<Node>, run: seq<Timed>, slots: nat, iss: U32, server: Addr, k: nat)
    requires IsRun(TidyStep, nodes, run) && k < |nodes|
    requires var c := nodes[0].ctx; c == Created(slots, c.reliable, c.eventCapacity, iss, server)
    ensures var c := nodes[k].ctx; c.blocks - Held(c.conns, c.reliable) == 0
  {
    NothingLeaks(nodes, run, slots, iss, server, k);
    HeldIsOwed(nodes[k].ctx.conns, nodes[k].ctx.reliable);
  }
}
