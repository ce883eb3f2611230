/**
 What the application is told: for every action of any context, the events are stated on the connections before
 and after and on the action alone.
 */
module Notices {
  import opened Wrappers
  import opened Protocol
  import opened Endpoint
  import opened Runs
  import opened Node
  import opened Lifecycle

  // ---------- What a slot's owner is told ----------

  /** The channels whose heads go out for the sixth time, in order. */
  function Stalls(chans: seq<Chan>, now: nat): seq<Note> {
    if chans == [] then []
    else (if HeadStalls(chans[0], now) then [Stalled(chans[0].sendQueue[0].packet.seqNo)] else [])
         + Stalls(chans[1..], now)
  }

  predicate HeadStalls(chan: Chan, now: nat) {
    && chan.reliable && chan.sendQueue != []
    && Expired(chan.sendQueue[0].timestamp, now) && chan.sendQueue[0].retransmits >= 5
  }

  /** A packet was accepted on the channel. */
  predicate Counts(before: Conn, after: Conn, k: nat) {
    && before.channels.Some? && after.channels.Some?
    && k < |before.channels.value| && k < |after.channels.value|
    && before.channels.value[k].ackNo != after.channels.value[k].ackNo
  }

  /** A packet that found the connection. */
  function ToldOfPacket(p: Packet, before: Conn, after: Conn): seq<Note> {
    if p.ctrl == RST then [Disconnected(Reset)]
    else if !before.state.Established? && (after.state.Established? || p.ctrl == SYN_ACK) then [Connected]
    else if after.state.Closed? then if before.state.Closed? then [] else [Disconnected(ByPeer)]
    else if !before.state.Established? then []
    else (if after.peer != before.peer then [Migrated] else [])
         + (if Counts(before, after, p.channel) then [Received(p.channel)] else [])
  }

  /** The timers: a server that gives up a handshake says nothing. */
  function ToldOfTimers(now: nat, before: Conn, after: Conn): seq<Note> {
    (if before.state.Established? && before.channels.Some? then Stalls(before.channels.value, now) else [])
    + (if after.state.Closed? && !before.state.Closed? && !before.state.SynRcvd? then [Disconnected(Timeout)] else [])
  }

  /** What the owner of slot `i` is told by an action that takes the context from `c` to `c'`. */
  function Told(c: Ctx, a: Action, now: nat, c': Ctx, i: nat): seq<Note>
    requires i < |c.conns| == |c'.conns|
  {
    if a.Recv? && Finds(c, a.packet, i) then ToldOfPacket(a.packet, c.conns[i], c'.conns[i])
    else if a.Timers? then ToldOfTimers(now, c.conns[i], c'.conns[i])
    else []
  }

  function Events(i: nat, notes: seq<Note>): (r: seq<Event>)
    ensures |r| == |notes|
  {
    seq(|notes|, j requires 0 <= j < |notes| => Event(i, notes[j]))
  }

  /** What the owners of slots `i` and up are told, in slot order. */
  function AllTold(c: Ctx, a: Action, now: nat, c': Ctx, i: nat): seq<Event>
    requires i <= |c.conns| == |c'.conns|
    decreases |c.conns| - i
  {
    if i == |c.conns| then [] else Events(i, Told(c, a, now, c', i)) + AllTold(c, a, now, c', i + 1)
  }

  /** The event queue keeps what came first. */
  function Kept(events: seq<Event>, capacity: nat): seq<Event> {
    if |events| <= capacity then events else events[..capacity]
  }

  lemma KeptTwice(events: seq<Event>, capacity: nat, more: seq<Event>)
    ensures Kept(Kept(events, capacity) + more, capacity) == Kept(events + more, capacity)
  {
  }

  lemma {:induction false} PushNotesKept(events: seq<Event>, capacity: nat, i: nat, notes: seq<Note>)
    requires |events| <= capacity
    ensures PushNotes(events, capacity, i, notes) == Kept(events + Events(i, notes), capacity)
    decreases |notes|
  {
    if notes == [] {
      assert events + Events(i, notes) == events;
    } else {
      var front, e := notes[..|notes| - 1], Event(i, notes[|notes| - 1]);
      PushNotesKept(events, capacity, i, front);
      assert events + Events(i, notes) == (events + Events(i, front)) + [e];
    }
  }

  // ---------- Packets ----------

  lemma {:induction false} ToldNothing(c: Ctx, a: Action, now: nat, c': Ctx, i: nat)
    requires i <= |c.conns| == |c'.conns|
    requires forall j :: i <= j < |c.conns| ==> Told(c, a, now, c', j) == []
    ensures AllTold(c, a, now, c', i) == []
    decreases |c.conns| - i
  {
    if i < |c.conns| {
      ToldNothing(c, a, now, c', i + 1);
      assert Told(c, a, now, c', i) == [];
    }
  }

  lemma ToldHere(c: Ctx, a: Action, now: nat, c': Ctx, i: nat)
    requires i < |c.conns| == |c'.conns|
    ensures Told(c, a, now, c', i) == [] ==> AllTold(c, a, now, c', i) == AllTold(c, a, now, c', i + 1)
    ensures AllTold(c, a, now, c', i + 1) == [] ==> AllTold(c, a, now, c', i) == Events(i, Told(c, a, now, c', i))
  {
  }

  /** Only slot `j` is told anything. */
  lemma {:induction false} ToldOnce(c: Ctx, a: Action, now: nat, c': Ctx, i: nat, j: nat)
    requires i <= j < |c.conns| == |c'.conns|
    requires forall k :: 0 <= k < |c.conns| && k != j ==> Told(c, a, now, c', k) == []
    ensures AllTold(c, a, now, c', i) == Events(j, Told(c, a, now, c', j))
    decreases j - i
  {
    ToldHere(c, a, now, c', i);
    if i == j {
      ToldNothing(c, a, now, c', i + 1);
    } else {
      ToldOnce(c, a, now, c', i + 1, j);
    }
  }

  lemma PacketTold(con: Conn, p: Packet, from: Addr, now: nat, sendOk: bool, reliable: seq<bool>)
    requires ConnOk(con, reliable) && IsAddressed(p)
    ensures var e := AddressedEffect(con, p, from, now, sendOk, reliable); e.notes == ToldOfPacket(p, con, e.con)
  {
    if con.state.Established? && p.ctrl == DATA && p.channel < |reliable| {
      assert ChanOk(con.channels.value[p.channel], reliable[p.channel]);
    }
  }

  lemma SynAckTold(con: Conn, p: Packet, now: nat, sendOk: bool, reliable: seq<bool>)
    requires ConnOk(con, reliable) && |reliable| >= 1 && p.ctrl == SYN_ACK
    ensures var e := SynAckEffect(con, p, now, sendOk, reliable); e.notes == ToldOfPacket(p, con, e.con)
  {
  }

  lemma InstallTold(c: Ctx, p: Packet, from: Addr, sendOk: bool, now: nat, j: nat, e: Effect)
    requires CtxOk(c) && j < |c.conns| && Finds(c, p, j)
    requires forall k :: 0 <= k < |c.conns| && k != j ==> !Finds(c, p, k)
    requires e.notes == ToldOfPacket(p, c.conns[j], e.con)
    ensures var c' := Install(c, j, e).ctx;
            && |c'.conns| == |c.conns|
            && c'.events == Kept(c.events + AllTold(c, Recv(p, from, sendOk), now, c', 0), c.eventCapacity)
  {
    var a, c' := Recv(p, from, sendOk), Install(c, j, e).ctx;
    forall k | 0 <= k < |c.conns| && k != j ensures Told(c, a, now, c', k) == [] {
    }
    ToldOnce(c, a, now, c', 0, j);
    PushNotesKept(c.events, c.eventCapacity, j, e.notes);
  }

  lemma UnmovedTold(c: Ctx, p: Packet, from: Addr, sendOk: bool, now: nat, c': Ctx)
    requires CtxOk(c) && |c'.conns| == |c.conns| && c'.events == c.events
    requires forall k :: 0 <= k < |c.conns| ==> !Finds(c, p, k)
    ensures c'.events == Kept(c.events + AllTold(c, Recv(p, from, sendOk), now, c', 0), c.eventCapacity)
  {
    ToldNothing(c, Recv(p, from, sendOk), now, c', 0);
    assert c.events + [] == c.events;
  }

  lemma RecvTold(c: Ctx, p: Packet, from: Addr, sendOk: bool, now: nat)
    requires CtxOk(c)
    ensures var c' := Receive(c, p, from, now, sendOk).ctx;
            && |c'.conns| == |c.conns|
            && c'.events == Kept(c.events + AllTold(c, Recv(p, from, sendOk), now, c', 0), c.eventCapacity)
  {
    if p.ctrl == SYN_ACK {
      var e := SynAckEffect(c.conns[0], p, now, sendOk, c.reliable);
      SynAckTold(c.conns[0], p, now, sendOk, c.reliable);
      InstallTold(c, p, from, sendOk, now, 0, e);
    } else if IsAddressed(p) && FindById(c.conns, p.connId).Some? {
      var j := FindById(c.conns, p.connId).value;
      PacketTold(c.conns[j], p, from, now, sendOk, c.reliable);
      InstallTold(c, p, from, sendOk, now, j, AddressedEffect(c.conns[j], p, from, now, sendOk, c.reliable));
    } else {
      UnmovedTold(c, p, from, sendOk, now, Receive(c, p, from, now, sendOk).ctx);
    }
  }

  // ---------- Timers ----------

  lemma {:induction false} TransmitTold(con: Conn, ch: nat, now: nat)
    requires con.channels.Some? && ch <= |con.channels.value|
    ensures TransmitFrom(con, ch, now).notes == Stalls(con.channels.value[ch..], now)
    decreases |con.channels.value| - ch
  {
    if ch < |con.channels.value| {
      var next := TransmitOne(con, ch, now).con;
      assert next.channels.value[ch + 1..] == con.channels.value[ch..][1..];
      TransmitTold(next, ch + 1, now);
    }
  }

  lemma TimerTold(con: Conn, now: nat, reliable: seq<bool>)
    requires ConnOk(con, reliable)
    ensures var e := TimerEffect(con, now, reliable); e.notes == ToldOfTimers(now, con, e.con)
  {
    TimerDiagram(con, now, reliable);
    if con.state.Established? {
      TransmitTold(con, 0, now);
      TransmitKeepsTimer(con, 0, now);
      assert con.channels.value[0..] == con.channels.value;
    }
  }

  /** The events of the timers of slots `slot` and up, on top of what was there. */
  lemma {:induction false} TimersTold(c: Ctx, now: nat, done: Ctx, c': Ctx, slot: nat)
    requires CtxOk(c) && CtxOk(done) && slot <= |c.conns| == |done.conns| == |c'.conns|
    requires done.reliable == c.reliable && done.eventCapacity == c.eventCapacity
    requires forall i :: slot <= i < |c.conns| ==> done.conns[i] == c.conns[i]
    requires forall i :: slot <= i < |c.conns| ==> c'.conns[i] == TimerEffect(c.conns[i], now, c.reliable).con
    ensures TimersFrom(done, slot, now).ctx.events
         == Kept(done.events + AllTold(c, Timers, now, c', slot), c.eventCapacity)
    decreases |c.conns| - slot
  {
    if slot == |c.conns| {
      assert done.events + [] == done.events;
    } else {
      var e := TimerEffect(c.conns[slot], now, c.reliable);
      var next := TimerOutcome(done, slot, now).ctx;
      TimerOutcomeOk(done, slot, now);
      TimersTold(c, now, next, c', slot + 1);
      TimerTold(c.conns[slot], now, c.reliable);
      PushNotesKept(done.events, c.eventCapacity, slot, e.notes);
      KeptTwice(done.events + Events(slot, e.notes), c.eventCapacity, AllTold(c, Timers, now, c', slot + 1));
      AppendAssociates(done.events, Events(slot, e.notes), AllTold(c, Timers, now, c', slot + 1));
    }
  }

  lemma AllTimersTold(c: Ctx, now: nat)
    requires CtxOk(c)
    ensures var c' := TimersFrom(c, 0, now).ctx;
            && |c'.conns| == |c.conns|
            && c'.events == Kept(c.events + AllTold(c, Timers, now, c', 0), c.eventCapacity)
  {
    var c' := TimersFrom(c, 0, now).ctx;
    TimersFromOk(c, 0, now);
    forall i | 0 <= i < |c.conns| ensures c'.conns[i] == TimerEffect(c.conns[i], now, c.reliable).con {
      TimersFromConn(c, 0, now, i);
    }
    TimersTold(c, now, c, c', 0);
  }

  // ---------- Every action ----------

  /**
   The report law: whatever the action, what it adds to the events is what the owners of the slots are to be
   told of it, in slot order, as long as there is room.
   */
  lemma EverythingIsReported(n: Node, a: Action, now: nat)
    requires CtxOk(n.ctx) && ActionOk(n, a)
    ensures var c, c' := n.ctx, Act(n, a, now).0.ctx;
            && |c'.conns| == |c.conns|
            && c'.events == if a.Poll? then (if c.events == [] then [] else c.events[1..])
                            else Kept(c.events + AllTold(c, a, now, c', 0), c.eventCapacity)
  {
    match a
    case Recv(p, from, sendOk) => RecvTold(n.ctx, p, from, sendOk, now);
    case Timers => AllTimersTold(n.ctx, now);
    case _ => CallTold(n, a, now);
  }

  lemma CallTold(n: Node, a: Action, now: nat)
    requires CtxOk(n.ctx) && ActionOk(n, a) && !a.Recv? && !a.Timers?
    ensures var c, c' := n.ctx, Act(n, a, now).0.ctx;
            && |c'.conns| == |c.conns|
            && c'.events == if a.Poll? then (if c.events == [] then [] else c.events[1..])
                            else Kept(c.events + AllTold(c, a, now, c', 0), c.eventCapacity)
  {
    var c, c' := n.ctx, Act(n, a, now).0.ctx;
    assert |c'.conns| == |c.conns| && (a.Poll? || c'.events == c.events);
    ToldNothing(c, a, now, c', 0);
    assert c.events + [] == c.events;
  }

  // ---------- Losses ----------

  function StallsIn(notes: seq<Note>): nat {
    if notes == [] then 0 else (if notes[0].Stalled? then 1 else 0) + StallsIn(notes[1..])
  }

  lemma {:induction false} StallsInAppend(a: seq<Note>, b: seq<Note>)
    ensures StallsIn(a + b) == StallsIn(a) + StallsIn(b)
    decreases |a|
  {
    if a == [] {
      assert a + b == b;
    } else {
      assert (a + b)[1..] == a[1..] + b;
      StallsInAppend(a[1..], b);
    }
  }

  lemma StallsInOne(note: Note)
    ensures StallsIn([note]) == if note.Stalled? then 1 else 0
  {
    assert [note][1..] == [];
  }

  lemma {:induction false} TransmitLoses(con: Conn, ch: nat, now: nat)
    requires con.channels.Some? && ch <= |con.channels.value|
    ensures TransmitFrom(con, ch, now).con.lossCount == con.lossCount + StallsIn(TransmitFrom(con, ch, now).notes)
    decreases |con.channels.value| - ch
  {
    if ch < |con.channels.value| {
      var t := TransmitHead(con.channels.value[ch], con.peer, now);
      var next := TransmitOne(con, ch, now).con;
      TransmitLoses(next, ch + 1, now);
      StallsInAppend(t.notes, TransmitFrom(next, ch + 1, now).notes);
      if t.notes != [] {
        StallsInOne(t.notes[0]);
      }
    }
  }

  lemma TimerLoses(con: Conn, now: nat, reliable: seq<bool>)
    requires ConnOk(con, reliable)
    ensures var e := TimerEffect(con, now, reliable); e.con.lossCount == con.lossCount + StallsIn(e.notes)
  {
    StallsInOne(Disconnected(Timeout));
    if con.state.Established? {
      TransmitLoses(con, 0, now);
      var transmitted := TransmitFrom(con, 0, now);
      StallsInAppend(transmitted.notes, KeepaliveEffect(transmitted.con, now, reliable).notes);
    }
  }

  /** A connect and a SYN that is taken start the count over. */
  predicate StartsOver(c: Ctx, a: Action, i: nat)
    requires i < |c.conns|
  {
    (a.ConnectTo? && i == 0)
    || (a.Recv? && IsSyn(a.packet) && Hosting(c, a.from) == Some(i) && !c.conns[i].state.Established?)
  }

  /** A packet is told of without a stall. */
  lemma PacketStallsNothing(p: Packet, before: Conn, after: Conn)
    ensures StallsIn(ToldOfPacket(p, before, after)) == 0
  {
    StallsInOne(Connected);
    StallsInOne(Disconnected(ByPeer));
    StallsInOne(Disconnected(Reset));
    StallsInOne(Migrated);
    StallsInOne(Received(p.channel));
    var moved: seq<Note> := [Migrated];
    StallsInAppend(moved, [Received(p.channel)]);
    StallsInAppend(moved, []);
  }

  lemma SynStartsOver(c: Ctx, p: Packet, from: Addr, sendOk: bool, now: nat, i: nat)
    requires CtxOk(c) && i < |c.conns| && IsSyn(p)
    ensures var c' := OnSyn(c, p, from, now).ctx;
            && |c'.conns| == |c.conns|
            && c'.conns[i].lossCount == if StartsOver(c, Recv(p, from, sendOk), i) then 0 else c.conns[i].lossCount
  {
  }

  lemma PacketLosesNothing(c: Ctx, p: Packet, from: Addr, sendOk: bool, now: nat, i: nat)
    requires CtxOk(c) && i < |c.conns|
    ensures var c' := Receive(c, p, from, now, sendOk).ctx;
            && |c'.conns| == |c.conns|
            && c'.conns[i].lossCount == (if StartsOver(c, Recv(p, from, sendOk), i) then 0 else c.conns[i].lossCount)
  {
    if IsSyn(p) {
      SynStartsOver(c, p, from, sendOk, now, i);
    } else if IsAddressed(p) {
      AddressedLosesNothing(c, p, from, sendOk, now, i);
    }
  }

  lemma AddressedLosesNothing(c: Ctx, p: Packet, from: Addr, sendOk: bool, now: nat, i: nat)
    requires CtxOk(c) && i < |c.conns| && IsAddressed(p)
    ensures var c' := OnAddressed(c, p, from, now, sendOk).ctx;
            |c'.conns| == |c.conns| && c'.conns[i].lossCount == c.conns[i].lossCount
  {
  }

  lemma CallLosesNothing(n: Node, a: Action, now: nat, i: nat)
    requires CtxOk(n.ctx) && ActionOk(n, a) && i < |n.ctx.conns| && !a.Recv? && !a.Timers?
    ensures var c, c' := n.ctx, Act(n, a, now).0.ctx;
            && |c'.conns| == |c.conns|
            && c'.conns[i].lossCount == if StartsOver(c, a, i) then 0 else c.conns[i].lossCount
  {
  }

  lemma ActLoses(n: Node, a: Action, now: nat, i: nat)
    requires CtxOk(n.ctx) && ActionOk(n, a) && i < |n.ctx.conns|
    ensures var c, c' := n.ctx, Act(n, a, now).0.ctx;
            && |c'.conns| == |c.conns|
            && c'.conns[i].lossCount
               == if StartsOver(c, a, i) then 0 else c.conns[i].lossCount + StallsIn(Told(c, a, now, c', i))
  {
    match a
    case Recv(p, from, sendOk) =>
      PacketLosesNothing(n.ctx, p, from, sendOk, now, i);
      PacketStallsNothing(p, n.ctx.conns[i], Receive(n.ctx, p, from, now, sendOk).ctx.conns[i]);
    case Timers =>
      TimersFromConn(n.ctx, 0, now, i);
      TimerLoses(n.ctx.conns[i], now, n.ctx.reliable);
      TimerTold(n.ctx.conns[i], now, n.ctx.reliable);
    case _ => CallLosesNothing(n, a, now, i);
  }

  /** A node, and the STALLED reports of slot `i` since it last started over. */
  datatype LossTally = LossTally(node: Node, stalls: nat)

  ghost predicate LossStep(i: nat, s: LossTally, t: Timed, s': LossTally) {
    && AnyStep(s.node, t, s'.node) && i < |s.node.ctx.conns| == |s'.node.ctx.conns|
    && s'.stalls == if StartsOver(s.node.ctx, t.action, i) then 0
                    else s.stalls + StallsIn(Told(s.node.ctx, t.action, t.now, s'.node.ctx, i))
  }

  ghost predicate LossesAre(i: nat, s: LossTally) {
    i < |s.node.ctx.conns| && s.node.ctx.conns[i].lossCount == s.stalls
  }

  /** In every run of a context the loss count of every slot is the number of stalls its owner was told of. */
  lemma LossesAreStalls(states: seq<LossTally>, run: seq<Timed>, slots: nat, iss: U32, server: Addr, i: nat, m: nat)
    requires IsRun((s, t, s') => LossStep(i, s, t, s'), states, run) && m < |states| && i < slots
    requires var c := states[0].node.ctx; c == Created(slots, c.reliable, c.eventCapacity, iss, server)
    requires states[0].stalls == 0
    ensures i < |states[m].node.ctx.conns| && states[m].node.ctx.conns[i].lossCount == states[m].stalls
  {
    var step := (s: LossTally, t: Timed, s': LossTally) => LossStep(i, s, t, s');
    assert Preserves(step, s => LossesAre(i, s)) by {
      forall s: LossTally, t: Timed, s': LossTally | step(s, t, s') && LossesAre(i, s) ensures LossesAre(i, s') {
        ActLoses(s.node, t.action, t.now, i);
      }
    }
    InvariantHolds(step, s => LossesAre(i, s), states, run, m);
  }
}
