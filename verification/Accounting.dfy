/**
 Counts that must agree, in every run of a context: RECEIVE events against waiting payloads, STALLED events
 against transmissions of the head, events polled against events pushed, address changes against accepted
 packets.
 */
module Accounting {
  import opened Wrappers
  import opened Protocol
  import opened Endpoint
  import opened Runs
  import opened Node
  import opened Slots
  import opened SendQueues

  // ---------- Counting events ----------

  /** RECEIVE events of one channel still waiting to be polled. */
  function Pending(events: seq<Event>, slot: nat, k: nat): nat {
    if events == [] then 0
    else Pending(events[..|events| - 1], slot, k) + if Reports(events[|events| - 1], slot, k) then 1 else 0
  }

  predicate Reports(e: Event, slot: nat, k: nat) {
    e.slot == slot && e.note.Received? && e.note.channel == k
  }

  function Counted(notes: seq<Note>, k: nat): nat {
    if notes == [] then 0
    else Counted(notes[..|notes| - 1], k) + if Reports(Event(0, notes[|notes| - 1]), 0, k) then 1 else 0
  }

  lemma PendingPush(events: seq<Event>, slot: nat, k: nat, e: Event)
    ensures Pending(events + [e], slot, k) == Pending(events, slot, k) + if Reports(e, slot, k) then 1 else 0
  {
    assert (events + [e])[..|events|] == events;
  }

  lemma {:induction false} PendingPoll(events: seq<Event>, slot: nat, k: nat)
    requires events != []
    ensures Pending(events[1..], slot, k) == Pending(events, slot, k) - if Reports(events[0], slot, k) then 1 else 0
    decreases |events|
  {
    var front := events[..|events| - 1];
    if front == [] {
      assert events[1..] == [];
    } else {
      assert events[1..][..|events| - 2] == front[1..];
      PendingPoll(front, slot, k);
    }
  }

  /** While the event queue is not full at the end nothing was dropped on the way. */
  lemma {:induction false} NotesPushed(events: seq<Event>, capacity: nat, at: nat, notes: seq<Note>, slot: nat, k: nat)
    requires |PushNotes(events, capacity, at, notes)| < capacity
    ensures Pending(PushNotes(events, capacity, at, notes), slot, k)
         == Pending(events, slot, k) + if at == slot then Counted(notes, k) else 0
    decreases |notes|
  {
    if notes != [] {
      var front := notes[..|notes| - 1];
      NotesPushed(events, capacity, at, front, slot, k);
      PendingPush(PushNotes(events, capacity, at, front), slot, k, Event(at, notes[|notes| - 1]));
    }
  }

  /** Notes that report no data leave the count alone, dropped or not. */
  lemma {:induction false} OtherNotesPushed(events: seq<Event>, capacity: nat, at: nat, notes: seq<Note>, slot: nat, k: nat)
    requires Counted(notes, k) == 0
    ensures Pending(PushNotes(events, capacity, at, notes), slot, k) == Pending(events, slot, k)
    decreases |notes|
  {
    if notes != [] {
      var front := notes[..|notes| - 1];
      OtherNotesPushed(events, capacity, at, front, slot, k);
      PendingPush(PushNotes(events, capacity, at, front), slot, k, Event(at, notes[|notes| - 1]));
    }
  }

  lemma {:induction false} CountedAppend(a: seq<Note>, b: seq<Note>, k: nat)
    ensures Counted(a + b, k) == Counted(a, k) + Counted(b, k)
    decreases |b|
  {
    if b == [] {
      assert a + b == a;
    } else {
      assert (a + b)[..|a + b| - 1] == a + b[..|b| - 1];
      CountedAppend(a, b[..|b| - 1], k);
    }
  }

  lemma CountOne(note: Note, k: nat)
    ensures Counted([note], k) == if note.Received? && note.channel == k then 1 else 0
  {
    assert [note][..0] == [];
  }

  // ---------- What each action reports ----------

  /** A DATA packet reports exactly what it queues. */
  lemma DataCounts(con: Conn, p: Packet, from: Addr, reliable: seq<bool>, k: nat)
    requires con.state.Established? && ConnOk(con, reliable) && k < |reliable|
    requires |con.channels.value[k].recvQueue| < QUEUE_CAPACITY
    ensures var e := DataEffect(con, p, from, reliable);
            && e.con.channels.Some? && |e.con.channels.value| == |reliable|
            && |e.con.channels.value[k].recvQueue| == |con.channels.value[k].recvQueue| + Counted(e.notes, k)
  {
    if p.channel < |reliable| {
      var news: seq<Note> := [Migrated];
      CountedAppend(news, [Received(p.channel)], k);
      CountedAppend(news, [], k);
      CountOne(Received(p.channel), k);
      CountOne(Migrated, k);
    }
  }

  lemma AddressedCounts(con: Conn, p: Packet, from: Addr, now: nat, sendOk: bool, reliable: seq<bool>, k: nat)
    requires con.state.Established? && ConnOk(con, reliable) && IsAddressed(p) && k < |reliable|
    requires |con.channels.value[k].recvQueue| < QUEUE_CAPACITY
    requires AddressedEffect(con, p, from, now, sendOk, reliable).con.state.Established?
    ensures var e := AddressedEffect(con, p, from, now, sendOk, reliable);
            && e.con.channels.Some? && |e.con.channels.value| == |reliable|
            && |e.con.channels.value[k].recvQueue| == |con.channels.value[k].recvQueue| + Counted(e.notes, k)
  {
    if p.ctrl == DATA {
      DataCounts(con, p, from, reliable, k);
    }
  }

  /** A handshake packet reports no data. */
  lemma HandshakeReportsNoData(c: Ctx, p: Packet, from: Addr, sendOk: bool, now: nat, i: nat, k: nat)
    requires CtxOk(c) && (p.ctrl == SYN || p.ctrl == ACK || p.ctrl == SYN_ACK)
    ensures Pending(Receive(c, p, from, now, sendOk).ctx.events, i, k) == Pending(c.events, i, k)
  {
    CountOne(Connected, k);
    if p.ctrl == SYN_ACK {
      OtherNotesPushed(c.events, c.eventCapacity, 0, SynAckEffect(c.conns[0], p, now, sendOk, c.reliable).notes, i, k);
    } else if p.ctrl == ACK {
      var slot := FindById(c.conns, p.connId);
      if slot.Some? {
        OtherNotesPushed(c.events, c.eventCapacity, slot.value,
                         AckEffect(c.conns[slot.value], p, now, c.reliable).notes, i, k);
      }
    }
  }

  lemma {:induction false} TransmitReportsNoData(con: Conn, ch: nat, now: nat, k: nat)
    requires con.channels.Some? && ch <= |con.channels.value|
    ensures Counted(TransmitFrom(con, ch, now).notes, k) == 0
    decreases |con.channels.value| - ch
  {
    if ch < |con.channels.value| {
      var t := TransmitHead(con.channels.value[ch], con.peer, now);
      var next := SetChannel(con, ch, t.chan).(lossCount := con.lossCount + t.losses);
      TransmitReportsNoData(next, ch + 1, now, k);
      CountedAppend(t.notes, TransmitFrom(next, ch + 1, now).notes, k);
      if t.notes != [] {
        CountOne(t.notes[0], k);
      }
    }
  }

  lemma TimerReportsNoData(con: Conn, now: nat, reliable: seq<bool>, k: nat)
    requires ConnOk(con, reliable)
    ensures Counted(TimerEffect(con, now, reliable).notes, k) == 0
  {
    CountOne(Disconnected(Timeout), k);
    if con.state.Established? {
      TransmitReportsNoData(con, 0, now, k);
      var transmitted := TransmitFrom(con, 0, now);
      CountedAppend(transmitted.notes, KeepaliveEffect(transmitted.con, now, reliable).notes, k);
    }
  }

  lemma {:induction false} TimersPending(c: Ctx, slot: nat, now: nat, at: nat, k: nat)
    requires CtxOk(c) && slot <= |c.conns|
    ensures Pending(TimersFrom(c, slot, now).ctx.events, at, k) == Pending(c.events, at, k)
    decreases |c.conns| - slot
  {
    if slot < |c.conns| {
      TimerOutcomeOk(c, slot, now);
      TimerReportsNoData(c.conns[slot], now, c.reliable, k);
      OtherNotesPushed(c.events, c.eventCapacity, slot, TimerEffect(c.conns[slot], now, c.reliable).notes, at, k);
      TimersPending(TimerOutcome(c, slot, now).ctx, slot + 1, now, at, k);
    }
  }

  // ---------- RECEIVE events against waiting payloads ----------

  function Waiting(c: Ctx, i: nat, k: nat): nat
    requires Up(c, i, k)
  {
    |ChanAt(c, i, k).recvQueue|
  }

  /** Slot `i` carries channel `k`, and neither the event queue nor the channel's receive queue is full. */
  ghost predicate NeitherFull(c: Ctx, i: nat, k: nat) {
    Up(c, i, k) && |c.events| < c.eventCapacity && Waiting(c, i, k) < QUEUE_CAPACITY
  }

  lemma RecvBalanced(c: Ctx, p: Packet, from: Addr, sendOk: bool, now: nat, i: nat, k: nat)
    requires CtxOk(c) && NeitherFull(c, i, k) && NeitherFull(Receive(c, p, from, now, sendOk).ctx, i, k)
    ensures var c' := Receive(c, p, from, now, sendOk).ctx;
            Pending(c'.events, i, k) - Pending(c.events, i, k) == Waiting(c', i, k) - Waiting(c, i, k)
  {
    if p.ctrl == SYN || p.ctrl == SYN_ACK || p.ctrl == PING || !IsAddressed(p) {
      OtherPacketsSpare(c, p, from, now, sendOk, i);
      if p.ctrl == SYN || p.ctrl == SYN_ACK {
        HandshakeReportsNoData(c, p, from, sendOk, now, i, k);
      }
    } else {
      AddressedBalanced(c, p, from, sendOk, now, i, k);
    }
  }

  lemma AddressedBalanced(c: Ctx, p: Packet, from: Addr, sendOk: bool, now: nat, i: nat, k: nat)
    requires CtxOk(c) && IsAddressed(p) && NeitherFull(c, i, k) && NeitherFull(OnAddressed(c, p, from, now, sendOk).ctx, i, k)
    ensures var c' := OnAddressed(c, p, from, now, sendOk).ctx;
            Pending(c'.events, i, k) - Pending(c.events, i, k) == Waiting(c', i, k) - Waiting(c, i, k)
  {
    var slot := FindById(c.conns, p.connId);
    if slot.Some? {
      var e := AddressedEffect(c.conns[slot.value], p, from, now, sendOk, c.reliable);
      NotesPushed(c.events, c.eventCapacity, slot.value, e.notes, i, k);
      if slot.value == i {
        AddressedCounts(c.conns[i], p, from, now, sendOk, c.reliable, k);
      }
    }
  }

  /** What a step adds to the RECEIVE events polled and not yet used. */
  function Licence(c: Ctx, a: Action, i: nat, k: nat): int
    requires CtxOk(c) && (a.Pop? ==> a.slot < |c.conns| && c.conns[a.slot].channels.Some?)
  {
    if a.Poll? then
      var e := PollEvent(c).1; if e.Some? && Reports(e.value, i, k) then 1 else 0
    else if a.Pop? && a.slot == i && a.channel == k && PopData(c, a.slot, a.channel, a.buflen).1.Success? then -1
    else 0
  }

  /**
   A node, and for one channel since its slot was established: the RECEIVE events polled and not yet used,
   the payloads accepted and the payloads popped.
   */
  datatype Ledger = Ledger(node: Node, licences: int, accepted: seq<Payload>, popped: seq<Payload>)

  /** What the application got by this action from channel `k` of slot `i`. */
  function Got(c: Ctx, a: Action, i: nat, k: nat): seq<Payload>
    requires CtxOk(c) && (a.Pop? ==> a.slot < |c.conns| && c.conns[a.slot].channels.Some?)
  {
    if a.Pop? && a.slot == i && a.channel == k && PopData(c, a.slot, a.channel, a.buflen).1.Success?
    then [PopData(c, a.slot, a.channel, a.buflen).2] else []
  }

  /** What the channel accepted by this action: the payload of a packet that advanced its counter. */
  function Took(c: Ctx, a: Action, c': Ctx, i: nat, k: nat): seq<Payload>
    requires Up(c, i, k) && Up(c', i, k)
  {
    if a.Recv? && ChanAt(c', i, k).ackNo != ChanAt(c, i, k).ackNo then [a.packet.payload] else []
  }

  ghost predicate LedgerStep(i: nat, k: nat, l: Ledger, t: Timed, l': Ledger) {
    var c, c' := l.node.ctx, l'.node.ctx;
    && AnyStep(l.node, t, l'.node) && NeitherFull(c, i, k) && NeitherFull(c', i, k)
    && l'.licences == l.licences + Licence(c, t.action, i, k)
    && l'.accepted == l.accepted + Took(c, t.action, c', i, k)
    && l'.popped == l.popped + Got(c, t.action, i, k)
  }

  /** The step that establishes slot `i`, with no RECEIVE of its channel `k` left from before. */
  ghost predicate LedgerStart(i: nat, k: nat, n: Node, t: Timed, l: Ledger) {
    && AnyStep(n, t, l.node)
    && i < |n.ctx.conns| && !n.ctx.conns[i].state.Established? && Up(l.node.ctx, i, k)
    && Pending(n.ctx.events, i, k) == 0
    && l.licences == 0 && l.accepted == [] && l.popped == []
  }

  /** Pending and polled events together are the payloads that wait, and these follow what was popped. */
  ghost predicate Balanced(i: nat, k: nat, l: Ledger) {
    var c := l.node.ctx;
    && CtxOk(c) && Up(c, i, k)
    && Pending(c.events, i, k) + l.licences == Waiting(c, i, k)
    && l.popped + Payloads(ChanAt(c, i, k).recvQueue) == l.accepted
  }

  lemma StartBalanced(i: nat, k: nat, n: Node, t: Timed, l: Ledger)
    requires LedgerStart(i, k, n, t, l)
    ensures Balanced(i, k, l)
  {
    ActOk(n, t.action, t.now);
    ActOpens(n, t.action, t.now, i, k);
    HandshakeReportsNoData(n.ctx, t.action.packet, t.action.from, t.action.sendOk, t.now, i, k);
  }

  /** The events of one action against the payloads it leaves waiting. */
  lemma ActBalanced(n: Node, a: Action, now: nat, i: nat, k: nat)
    requires CtxOk(n.ctx) && ActionOk(n, a) && NeitherFull(n.ctx, i, k) && NeitherFull(Act(n, a, now).0.ctx, i, k)
    ensures var c, c' := n.ctx, Act(n, a, now).0.ctx;
            Pending(c'.events, i, k) + Licence(c, a, i, k) - Pending(c.events, i, k) == Waiting(c', i, k) - Waiting(c, i, k)
  {
    match a
    case Recv(p, from, sendOk) => RecvBalanced(n.ctx, p, from, sendOk, now, i, k);
    case Timers =>
      TimersPending(n.ctx, 0, now, i, k);
      TimersStay(n.ctx, now, i, k);
    case Poll =>
      if n.ctx.events != [] {
        PendingPoll(n.ctx.events, i, k);
      }
    case _ => CallBalanced(n, a, now, i, k);
  }

  lemma CallBalanced(n: Node, a: Action, now: nat, i: nat, k: nat)
    requires CtxOk(n.ctx) && ActionOk(n, a) && Up(n.ctx, i, k) && Up(Act(n, a, now).0.ctx, i, k)
    requires a.SendData? || a.CloseConn? || a.ConnectTo? || a.Pop?
    ensures var c, c' := n.ctx, Act(n, a, now).0.ctx;
            c'.events == c.events && Licence(c, a, i, k) == Waiting(c', i, k) - Waiting(c, i, k)
  {
    var m := ActStays(n, a, now, i, k);
  }

  /** The payloads popped, waiting and accepted move together. */
  lemma ActKeepsOrder(n: Node, a: Action, now: nat, i: nat, k: nat, accepted: seq<Payload>, popped: seq<Payload>)
    requires CtxOk(n.ctx) && ActionOk(n, a) && NeitherFull(n.ctx, i, k) && Up(Act(n, a, now).0.ctx, i, k)
    requires popped + Payloads(ChanAt(n.ctx, i, k).recvQueue) == accepted
    ensures var c, c' := n.ctx, Act(n, a, now).0.ctx;
            popped + Got(c, a, i, k) + Payloads(ChanAt(c', i, k).recvQueue) == accepted + Took(c, a, c', i, k)
  {
    var m := ActStays(n, a, now, i, k);
    var c, c' := n.ctx, Act(n, a, now).0.ctx;
    MoveKeepsOrder(ChanAt(c, i, k), ChanAt(c', i, k), c.conns[i].peer, m, popped,
                   Got(c, a, i, k), Took(c, a, c', i, k)) by {
      MoveShows(c, a, now, c', i, k, m);
    }
  }

  /** What a move hands over and takes in. */
  lemma MoveShows(c: Ctx, a: Action, now: nat, c': Ctx, i: nat, k: nat, m: Move)
    requires CtxOk(c) && Stays(c, a, now, c', i, k, m)
    requires a.Pop? ==> a.slot < |c.conns| && c.conns[a.slot].channels.Some?
    requires a.Pop? && !m.Popped? ==> Got(c, a, i, k) == []
    ensures Got(c, a, i, k) == if m.Popped? then [ChanAt(c, i, k).recvQueue[0].payload] else []
    ensures Took(c, a, c', i, k) == if m.Accepted? then [m.packet.payload] else []
  {
  }

  lemma MoveKeepsOrder(chan: Chan, after: Chan, peer: Addr, m: Move, popped: seq<Payload>, got: seq<Payload>, took: seq<Payload>)
    requires Moved(chan, peer, after, m) && |chan.recvQueue| < QUEUE_CAPACITY
    requires got == if m.Popped? then [chan.recvQueue[0].payload] else []
    requires took == if m.Accepted? then [m.packet.payload] else []
    ensures popped + got + Payloads(after.recvQueue) == popped + Payloads(chan.recvQueue) + took
  {
    match m
    case Accepted(p) => PayloadsSnoc(chan.recvQueue, p);
    case _ =>
  }

  lemma LedgerStepBalanced(i: nat, k: nat, l: Ledger, t: Timed, l': Ledger)
    requires LedgerStep(i, k, l, t, l') && Balanced(i, k, l)
    ensures Balanced(i, k, l')
  {
    ActOk(l.node, t.action, t.now);
    ActBalanced(l.node, t.action, t.now, i, k);
    ActKeepsOrder(l.node, t.action, t.now, i, k, l.accepted, l.popped);
  }

  /**
   From the step that establishes a slot on, as long as it stays established and neither queue fills up, the
   RECEIVE events pending or polled are exactly the payloads waiting; so a RECEIVE that was polled and not yet
   used lets `PopData` succeed, and it returns the next payload accepted. Other slots may do what they like.
   */
  lemma ReceiveLicensesPop(n: Node, t: Timed, ledgers: seq<Ledger>, run: seq<Timed>, i: nat, k: nat, m: nat)
    requires IsRun((l, t, l') => LedgerStep(i, k, l, t, l'), ledgers, run) && m < |ledgers|
    requires LedgerStart(i, k, n, t, ledgers[0])
    ensures Balanced(i, k, ledgers[m])
    ensures var l := ledgers[m];
            l.licences > 0 ==>
              && |l.popped| < |l.accepted|
              && forall buflen: nat, channel: U8 :: channel == k && 0 < buflen && |l.accepted[|l.popped|]| <= buflen ==>
                   PopData(l.node.ctx, i, channel, buflen).1.Success?
                   && PopData(l.node.ctx, i, channel, buflen).2 == l.accepted[|l.popped|]
  {
    var step := (l: Ledger, t: Timed, l': Ledger) => LedgerStep(i, k, l, t, l');
    assert Preserves(step, l => Balanced(i, k, l)) by {
      forall l: Ledger, t: Timed, l': Ledger | step(l, t, l') && Balanced(i, k, l) ensures Balanced(i, k, l') {
        LedgerStepBalanced(i, k, l, t, l');
      }
    }
    StartBalanced(i, k, n, t, ledgers[0]);
    InvariantHolds(step, l => Balanced(i, k, l), ledgers, run, m);
    LicenceMeansPayload(i, k, ledgers[m]);
  }

  lemma LicenceMeansPayload(i: nat, k: nat, l: Ledger)
    requires Balanced(i, k, l)
    ensures l.licences > 0 ==>
              && |l.popped| < |l.accepted| && Waiting(l.node.ctx, i, k) > 0
              && ChanAt(l.node.ctx, i, k).recvQueue[0].payload == l.accepted[|l.popped|]
  {
    var queue := ChanAt(l.node.ctx, i, k).recvQueue;
    if l.licences > 0 {
      assert (l.popped + Payloads(queue))[|l.popped|] == queue[0].payload;
    }
  }

  // ---------- Accepted against popped and waiting ----------

  /** A node, and for one channel since its slot was established: what it accepted, what was popped, and whether a
      packet was accepted into a full queue. */
  datatype Record = Record(node: Node, accepted: seq<Payload>, popped: seq<Payload>, overflowed: bool)

  ghost predicate RecordStep(i: nat, k: nat, r: Record, t: Timed, r': Record) {
    var c, c' := r.node.ctx, r'.node.ctx;
    && AnyStep(r.node, t, r'.node) && Up(c, i, k) && Up(c', i, k)
    && r'.accepted == r.accepted + Took(c, t.action, c', i, k)
    && r'.popped == r.popped + Got(c, t.action, i, k)
    && r'.overflowed == (r.overflowed || (Took(c, t.action, c', i, k) != [] && Waiting(c, i, k) >= QUEUE_CAPACITY))
  }

  ghost predicate RecordStart(i: nat, k: nat, n: Node, t: Timed, r: Record) {
    && AnyStep(n, t, r.node)
    && i < |n.ctx.conns| && !n.ctx.conns[i].state.Established? && Up(r.node.ctx, i, k)
    && r.accepted == [] && r.popped == [] && !r.overflowed
  }

  ghost predicate RecordOk(i: nat, k: nat, r: Record) {
    && CtxOk(r.node.ctx) && Up(r.node.ctx, i, k)
    && (!r.overflowed ==> r.popped + Payloads(ChanAt(r.node.ctx, i, k).recvQueue) == r.accepted)
    && (r.overflowed ==> |r.popped| + Waiting(r.node.ctx, i, k) < |r.accepted|)
  }

  /** A move takes one in, hands one over, or loses the one it takes in. */
  lemma MoveCounts(chan: Chan, after: Chan, peer: Addr, m: Move, got: seq<Payload>, took: seq<Payload>)
    requires Moved(chan, peer, after, m)
    requires got == if m.Popped? then [chan.recvQueue[0].payload] else []
    requires took == if m.Accepted? then [m.packet.payload] else []
    ensures |after.recvQueue| + |got| <= |chan.recvQueue| + |took|
    ensures took != [] && |chan.recvQueue| >= QUEUE_CAPACITY ==> |after.recvQueue| + |got| < |chan.recvQueue| + |took|
    ensures took == [] || |chan.recvQueue| < QUEUE_CAPACITY ==>
              got + Payloads(after.recvQueue) == Payloads(chan.recvQueue) + took
  {
    match m
    case Accepted(p) => PayloadsSnoc(chan.recvQueue, p);
    case _ =>
  }

  lemma RecordStepOk(i: nat, k: nat, r: Record, t: Timed, r': Record)
    requires RecordStep(i, k, r, t, r') && RecordOk(i, k, r)
    ensures RecordOk(i, k, r')
  {
    var c, c' := r.node.ctx, r'.node.ctx;
    ActOk(r.node, t.action, t.now);
    var m := ActStays(r.node, t.action, t.now, i, k);
    MoveShows(c, t.action, t.now, c', i, k, m);
    var got, took := Got(c, t.action, i, k), Took(c, t.action, c', i, k);
    MoveCounts(ChanAt(c, i, k), ChanAt(c', i, k), c.conns[i].peer, m, got, took);
    AppendAssociates(r.popped, got, Payloads(ChanAt(c', i, k).recvQueue));
    AppendAssociates(r.popped, Payloads(ChanAt(c, i, k).recvQueue), took);
  }

  /**
   From the step that establishes a slot on, for as long as it stays established: what was accepted is what was
   popped followed by what waits, exactly when no packet was accepted into a full receive queue.
   */
  lemma KeptIffNeverFull(n: Node, t: Timed, records: seq<Record>, run: seq<Timed>, i: nat, k: nat, m: nat)
    requires IsRun((r, t, r') => RecordStep(i, k, r, t, r'), records, run) && m < |records|
    requires RecordStart(i, k, n, t, records[0])
    ensures CtxOk(records[m].node.ctx) && Up(records[m].node.ctx, i, k)
    ensures records[m].popped + Payloads(ChanAt(records[m].node.ctx, i, k).recvQueue) == records[m].accepted
       <==> !records[m].overflowed
  {
    var step := (r: Record, t: Timed, r': Record) => RecordStep(i, k, r, t, r');
    assert Preserves(step, r => RecordOk(i, k, r)) by {
      forall r: Record, t: Timed, r': Record | step(r, t, r') && RecordOk(i, k, r) ensures RecordOk(i, k, r') {
        RecordStepOk(i, k, r, t, r');
      }
    }
    ActOk(n, t.action, t.now);
    ActOpens(n, t.action, t.now, i, k);
    InvariantHolds(step, r => RecordOk(i, k, r), records, run, m);
  }

  /** A packet that is due and finds the receive queue full. */
  ghost predicate ArrivesFull(c: Ctx, p: Packet, i: nat, k: nat) {
    && CtxOk(c) && Up(c, i, k) && c.reliable[k] && |ChanAt(c, i, k).recvQueue| == QUEUE_CAPACITY
    && p.ctrl == DATA && p.channel == k && p.seqNo == ChanAt(c, i, k).ackNo && FindById(c.conns, p.connId) == Some(i)
  }

  lemma FullQueueDrops(con: Conn, p: Packet, reliable: seq<bool>)
    requires con.state.Established? && ConnOk(con, reliable) && p.channel < |reliable| && reliable[p.channel]
    requires var chan := con.channels.value[p.channel]; |chan.recvQueue| == QUEUE_CAPACITY && p.seqNo == chan.ackNo
    ensures var e, chan := DataEffect(con, p, con.peer, reliable), con.channels.value[p.channel];
            && e.sent == [Datagram(con.peer, Packet(DATA_ACK, p.channel, con.connId, chan.seqNo, p.seqNo, []))]
            && e.con == SetChannel(con, p.channel, chan.(ackNo := Next32(chan.ackNo)))
  {
    assert ChanOk(con.channels.value[p.channel], reliable[p.channel]);
  }

  lemma FullRecv(c: Ctx, p: Packet, now: nat, i: nat, k: nat)
    requires ArrivesFull(c, p, i, k)
    ensures Receive(c, p, c.conns[i].peer, now, true) == Install(c, i, DataEffect(c.conns[i], p, c.conns[i].peer, c.reliable))
  {
  }

  /** Accepting into a full queue: answered and counted like any other, and gone. */
  lemma FullQueueLoses(n: Node, p: Packet, now: nat, i: nat, k: nat)
    requires ArrivesFull(n.ctx, p, i, k)
    ensures var con, chan := n.ctx.conns[i], ChanAt(n.ctx, i, k);
            var (n', sent) := ActRecv(n, p, con.peer, true, now);
            && sent == [Datagram(con.peer, Packet(DATA_ACK, p.channel, con.connId, chan.seqNo, p.seqNo, []))]
            && Up(n'.ctx, i, k)
            && ChanAt(n'.ctx, i, k) == chan.(ackNo := Next32(chan.ackNo))
            && Took(n.ctx, Recv(p, con.peer, true), n'.ctx, i, k) == [p.payload]
  {
    FullQueueDrops(n.ctx.conns[i], p, n.ctx.reliable);
    FullRecv(n.ctx, p, now, i, k);
  }

  /** So the record of the end is not lossless any more. */
  lemma FullQueueIsRecorded(n: Node, p: Packet, now: nat, k: nat)
    requires NodeInv(n) && ArrivesFull(n.ctx, p, n.slot, k)
    ensures var n' := ActRecv(n, p, n.ctx.conns[n.slot].peer, true, now).0;
            && k < |n'.books| && !n'.books[k].lossless
            && n'.books[k].accepted == n.books[k].accepted + [p.payload]
  {
    var con := n.ctx.conns[n.slot];
    FullQueueDrops(con, p, n.ctx.reliable);
    FullRecv(n.ctx, p, now, n.slot, k);
    ObserveOneChannel(n.books, con, DataEffect(con, p, con.peer, n.ctx.reliable).con, k, p.payload);
  }

  // ---------- Transmissions of the head ----------

  /** What channel `k` contributes to the notes of an established slot; see `NotesByChannels`. */
  function ChannelNotes(c: Ctx, a: Action, now: nat, i: nat, k: nat): seq<Note>
    requires Up(c, i, k)
  {
    if a.Timers? then TransmitHead(ChanAt(c, i, k), c.conns[i].peer, now).notes else []
  }

  function NotesFrom(con: Conn, ch: nat, now: nat): seq<Note>
    requires con.channels.Some? && ch <= |con.channels.value|
    decreases |con.channels.value| - ch
  {
    if ch == |con.channels.value| then []
    else TransmitHead(con.channels.value[ch], con.peer, now).notes + NotesFrom(con, ch + 1, now)
  }

  function HeadsFrom(con: Conn, ch: nat, now: nat): seq<Datagram>
    requires con.channels.Some? && ch <= |con.channels.value|
    decreases |con.channels.value| - ch
  {
    if ch == |con.channels.value| then []
    else TransmitHead(con.channels.value[ch], con.peer, now).sent + HeadsFrom(con, ch + 1, now)
  }

  lemma {:induction false} TransmitByChannels(con: Conn, ch: nat, now: nat, done: Conn)
    requires con.channels.Some? && done.channels.Some? && |done.channels.value| == |con.channels.value|
    requires ch <= |con.channels.value| && done.peer == con.peer
    requires forall k :: ch <= k < |con.channels.value| ==> done.channels.value[k] == con.channels.value[k]
    ensures TransmitFrom(done, ch, now).notes == NotesFrom(con, ch, now)
    ensures TransmitFrom(done, ch, now).sent == HeadsFrom(con, ch, now)
    decreases |con.channels.value| - ch
  {
    if ch < |con.channels.value| {
      var t := TransmitHead(done.channels.value[ch], done.peer, now);
      TransmitByChannels(con, ch + 1, now, SetChannel(done, ch, t.chan).(lossCount := done.lossCount + t.losses));
    }
  }

  /** The notes of a slot's timers are those of its channels, in order, and the keepalive's. */
  lemma NotesByChannels(con: Conn, now: nat, reliable: seq<bool>)
    requires con.state.Established? && ConnOk(con, reliable)
    ensures TimerEffect(con, now, reliable).notes
         == NotesFrom(con, 0, now) + KeepaliveEffect(TransmitFrom(con, 0, now).con, now, reliable).notes
  {
    TransmitByChannels(con, 0, now, con);
  }

  function CountPacket(sent: seq<Datagram>, q: Packet): nat {
    if sent == [] then 0 else (if sent[0].packet == q then 1 else 0) + CountPacket(sent[1..], q)
  }

  lemma {:induction false} CountPacketAppend(a: seq<Datagram>, b: seq<Datagram>, q: Packet)
    ensures CountPacket(a + b, q) == CountPacket(a, q) + CountPacket(b, q)
    decreases |a|
  {
    if a == [] {
      assert a + b == b;
    } else {
      assert (a + b)[1..] == a[1..] + b;
      CountPacketAppend(a[1..], b, q);
    }
  }

  lemma OtherHeadNotCounted(chan: Chan, peer: Addr, now: nat, ch: nat, q: Packet)
    requires QueueTagged(chan.sendQueue, ch) && q.channel != ch
    ensures CountPacket(TransmitHead(chan, peer, now).sent, q) == 0
  {
    var sent := TransmitHead(chan, peer, now).sent;
    if sent != [] {
      assert sent[0].packet == chan.sendQueue[0].packet && sent[1..] == [];
    }
  }

  /** How often `q` is among the heads of channel `ch` and up. */
  function TimesFrom(con: Conn, ch: nat, now: nat, q: Packet): nat
    requires con.channels.Some? && ch <= |con.channels.value|
    decreases |con.channels.value| - ch
  {
    if ch == |con.channels.value| then 0
    else CountPacket(TransmitHead(con.channels.value[ch], con.peer, now).sent, q) + TimesFrom(con, ch + 1, now, q)
  }

  lemma {:induction false} HeadsAreCounted(con: Conn, ch: nat, now: nat, q: Packet)
    requires con.channels.Some? && ch <= |con.channels.value|
    ensures CountPacket(HeadsFrom(con, ch, now), q) == TimesFrom(con, ch, now, q)
    decreases |con.channels.value| - ch
  {
    if ch < |con.channels.value| {
      HeadsAreCounted(con, ch + 1, now, q);
      CountPacketAppend(TransmitHead(con.channels.value[ch], con.peer, now).sent, HeadsFrom(con, ch + 1, now), q);
    }
  }

  /** Among the heads a slot sends, only channel `k` can send a DATA packet of channel `k`. */
  lemma {:induction false} HeadSentOnce(con: Conn, ch: nat, now: nat, k: nat, q: Packet, once: nat)
    requires con.channels.Some? && ch <= |con.channels.value| && k < |con.channels.value| && q.channel == k
    requires forall c :: 0 <= c < |con.channels.value| ==> QueueTagged(con.channels.value[c].sendQueue, c)
    requires once == CountPacket(TransmitHead(con.channels.value[k], con.peer, now).sent, q)
    ensures TimesFrom(con, ch, now, q) == if ch <= k then once else 0
    decreases |con.channels.value| - ch
  {
    if ch < |con.channels.value| {
      HeadSentOnce(con, ch + 1, now, k, q, once);
      if ch != k {
        OtherHeadNotCounted(con.channels.value[ch], con.peer, now, ch, q);
      }
    }
  }

  /** A tick sends the head of a reliable channel once if it is due, and not otherwise. */
  lemma TickCounts(con: Conn, now: nat, reliable: seq<bool>, k: nat)
    requires con.state.Established? && ConnOk(con, reliable) && k < |reliable| && reliable[k]
    requires forall c :: 0 <= c < |reliable| ==> QueueTagged(con.channels.value[c].sendQueue, c)
    requires con.channels.value[k].sendQueue != []
    ensures var head := con.channels.value[k].sendQueue[0];
            CountPacket(TimerEffect(con, now, reliable).sent, head.packet) == if Expired(head.timestamp, now) then 1 else 0
  {
    var head := con.channels.value[k].sendQueue[0];
    TransmitByChannels(con, 0, now, con);
    HeadsAreCounted(con, 0, now, head.packet);
    HeadSentOnce(con, 0, now, k, head.packet, CountPacket(TransmitHead(con.channels.value[k], con.peer, now).sent, head.packet));
    var transmitted := TransmitFrom(con, 0, now);
    var alive := KeepaliveEffect(transmitted.con, now, reliable);
    CountPacketAppend(transmitted.sent, alive.sent, head.packet);
    assert QueueTagged(con.channels.value[k].sendQueue, k);
    PingNotCounted(transmitted.con, now, reliable, head.packet);
    assert ChanOk(con.channels.value[k], reliable[k]);
    HeadCounted(con.channels.value[k], con.peer, now);
  }

  lemma PingNotCounted(con: Conn, now: nat, reliable: seq<bool>, q: Packet)
    requires q.ctrl == DATA
    ensures CountPacket(KeepaliveEffect(con, now, reliable).sent, q) == 0
  {
    var sent := KeepaliveEffect(con, now, reliable).sent;
    if sent != [] {
      assert sent[1..] == [];
    }
  }

  lemma HeadCounted(chan: Chan, peer: Addr, now: nat)
    requires chan.sendQueue != []
    ensures CountPacket(TransmitHead(chan, peer, now).sent, chan.sendQueue[0].packet)
         == if Expired(chan.sendQueue[0].timestamp, now) then 1 else 0
  {
    var sent := TransmitHead(chan, peer, now).sent;
    if sent != [] {
      assert sent[1..] == [];
    }
  }

  /** A node, how often the present head of a channel was sent, and how often it was reported STALLED. */
  datatype Tally = Tally(node: Node, sends: nat, stalls: nat)

  /** Both counts start over when the slot is not established and when the head leaves. */
  ghost predicate TallyStep(i: nat, k: nat, s: Tally, t: Timed, s': Tally) {
    var c, c' := s.node.ctx, s'.node.ctx;
    && AnyStep(s.node, t, s'.node)
    && if !Up(c, i, k) || !Up(c', i, k) || ChanAt(c, i, k).sendQueue == []
          || |ChanAt(c', i, k).sendQueue| < |ChanAt(c, i, k).sendQueue|
       then s'.sends == 0 && s'.stalls == 0
       else
         && s'.sends == s.sends + CountPacket(SlotSent(c, t.action, t.now, i), ChanAt(c, i, k).sendQueue[0].packet)
         && s'.stalls == s.stalls + |ChannelNotes(c, t.action, t.now, i, k)|
  }

  /** Six transmissions to a report; the counter of the head is the remainder, the others are untouched. */
  ghost predicate QueueTallied(queue: seq<Entry>, sends: nat, stalls: nat) {
    && (forall j :: 1 <= j < |queue| ==> queue[j].retransmits == 0)
    && if queue == [] then sends == 0 && stalls == 0
       else queue[0].retransmits <= MAX_RETRY && sends == 6 * stalls + queue[0].retransmits
  }

  ghost predicate Tallied(i: nat, k: nat, s: Tally) {
    && CtxOk(s.node.ctx) && Tagged(s.node.ctx)
    && (Up(s.node.ctx, i, k) && s.node.ctx.reliable[k] ==>
          QueueTallied(ChanAt(s.node.ctx, i, k).sendQueue, s.sends, s.stalls))
  }

  /** One transmission of the head, and its report if it is the sixth. */
  lemma TickTallied(chan: Chan, peer: Addr, now: nat, sends: nat, stalls: nat)
    requires chan.reliable && chan.sendQueue != [] && QueueTallied(chan.sendQueue, sends, stalls)
    ensures var t := TransmitHead(chan, peer, now);
            QueueTallied(t.chan.sendQueue,
                         sends + if Expired(chan.sendQueue[0].timestamp, now) then 1 else 0, stalls + |t.notes|)
  {
  }

  lemma DequeuedTallied(queue: seq<Entry>, sends: nat, stalls: nat)
    requires queue != [] && QueueTallied(queue, sends, stalls)
    ensures QueueTallied(queue[1..], 0, 0)
  {
    assert forall j :: 0 <= j < |queue[1..]| ==> queue[1..][j] == queue[j + 1];
  }

  lemma StayTallied(i: nat, k: nat, s: Tally, t: Timed, s': Tally, m: Move)
    requires TallyStep(i, k, s, t, s') && Tallied(i, k, s)
    requires Stays(s.node.ctx, t.action, t.now, s'.node.ctx, i, k, m) && s.node.ctx.reliable[k]
    ensures QueueTallied(ChanAt(s'.node.ctx, i, k).sendQueue, s'.sends, s'.stalls)
  {
    var c, c' := s.node.ctx, s'.node.ctx;
    var queue := ChanAt(c, i, k).sendQueue;
    assert ConnOk(c.conns[i], c.reliable) && ChanOk(ChanAt(c, i, k), c.reliable[k]);
    match m
    case Ticked(now) =>
      if queue != [] {
        forall ch | 0 <= ch < |c.reliable| ensures QueueTagged(c.conns[i].channels.value[ch].sendQueue, ch) {
          assert Up(c, i, ch);
        }
        TickCounts(c.conns[i], now, c.reliable, k);
        TickTallied(ChanAt(c, i, k), c.conns[i].peer, now, s.sends, s.stalls);
      }
    case Acked => DequeuedTallied(queue, s.sends, s.stalls);
    case _ =>
  }

  lemma TallyStepKeeps(i: nat, k: nat, s: Tally, t: Timed, s': Tally)
    requires TallyStep(i, k, s, t, s') && Tallied(i, k, s)
    ensures Tallied(i, k, s')
  {
    ActOk(s.node, t.action, t.now);
    ActTagged(s.node, t.action, t.now);
    ActKeepsSlots(s.node, t.action, t.now);
    if Up(s'.node.ctx, i, k) && s'.node.ctx.reliable[k] {
      if s.node.ctx.conns[i].state.Established? {
        assert ConnOk(s.node.ctx.conns[i], s.node.ctx.reliable);
        var m := ActStays(s.node, t.action, t.now, i, k);
        StayTallied(i, k, s, t, s', m);
      } else {
        ActOpens(s.node, t.action, t.now, i, k);
      }
    }
  }

  /**
   In every run of a context, for every reliable channel of every slot: the datagrams that carried the
   present head are six times its STALLED reports plus its counter, which is at most 5.
   */
  lemma StallsAreCounted(tallies: seq<Tally>, run: seq<Timed>, slots: nat, iss: U32, server: Addr, i: nat, k: nat, m: nat)
    requires IsRun((s, t, s') => TallyStep(i, k, s, t, s'), tallies, run) && m < |tallies|
    requires var c := tallies[0].node.ctx; c == Created(slots, c.reliable, c.eventCapacity, iss, server)
    requires slots >= 1 && 1 <= |tallies[0].node.ctx.reliable| <= 255
    requires Up(tallies[m].node.ctx, i, k) && tallies[m].node.ctx.reliable[k]
    ensures var queue := ChanAt(tallies[m].node.ctx, i, k).sendQueue;
            if queue == [] then tallies[m].sends == 0
            else queue[0].retransmits <= 5 && tallies[m].sends == 6 * tallies[m].stalls + queue[0].retransmits
  {
    var step := (s: Tally, t: Timed, s': Tally) => TallyStep(i, k, s, t, s');
    assert Preserves(step, s => Tallied(i, k, s)) by {
      forall s: Tally, t: Timed, s': Tally | step(s, t, s') && Tallied(i, k, s) ensures Tallied(i, k, s') {
        TallyStepKeeps(i, k, s, t, s');
      }
    }
    InvariantHolds(step, s => Tallied(i, k, s), tallies, run, m);
  }

  // ---------- Events in order ----------

  /** A node, and the events polled so far. */
  datatype Polling = Polling(node: Node, polled: seq<Event>)

  ghost predicate PollingStep(s: Polling, t: Timed, s': Polling) {
    && AnyStep(s.node, t, s'.node)
    && var event := PollEvent(s.node.ctx).1;
       s'.polled == if t.action.Poll? && event.Some? then s.polled + [event.value] else s.polled
  }

  /** Every event pushed and not dropped, oldest first. */
  function History(s: Polling): seq<Event> {
    s.polled + s.node.ctx.events
  }

  lemma {:induction false} PushOnlyAppends(events: seq<Event>, capacity: nat, slot: nat, notes: seq<Note>)
    ensures events <= PushNotes(events, capacity, slot, notes)
    decreases |notes|
  {
    if notes != [] {
      PushOnlyAppends(events, capacity, slot, notes[..|notes| - 1]);
    }
  }

  lemma {:induction false} TimersOnlyAppend(c: Ctx, slot: nat, now: nat)
    requires CtxOk(c) && slot <= |c.conns|
    ensures c.events <= TimersFrom(c, slot, now).ctx.events
    decreases |c.conns| - slot
  {
    if slot < |c.conns| {
      TimerOutcomeOk(c, slot, now);
      PushOnlyAppends(c.events, c.eventCapacity, slot, TimerEffect(c.conns[slot], now, c.reliable).notes);
      TimersOnlyAppend(TimerOutcome(c, slot, now).ctx, slot + 1, now);
    }
  }

  lemma ReceiveOnlyAppends(c: Ctx, p: Packet, from: Addr, now: nat, sendOk: bool)
    requires CtxOk(c)
    ensures c.events <= Receive(c, p, from, now, sendOk).ctx.events
  {
    if p.ctrl == SYN_ACK {
      PushOnlyAppends(c.events, c.eventCapacity, 0, SynAckEffect(c.conns[0], p, now, sendOk, c.reliable).notes);
    } else if IsAddressed(p) {
      var slot := FindById(c.conns, p.connId);
      if slot.Some? {
        PushOnlyAppends(c.events, c.eventCapacity, slot.value,
                        AddressedEffect(c.conns[slot.value], p, from, now, sendOk, c.reliable).notes);
      }
    }
  }

  lemma StepKeepsHistory(s: Polling, t: Timed, s': Polling)
    requires PollingStep(s, t, s')
    ensures History(s) <= History(s')
  {
    match t.action
    case Recv(p, from, sendOk) => ReceiveOnlyAppends(s.node.ctx, p, from, t.now, sendOk);
    case Timers => TimersOnlyAppend(s.node.ctx, 0, t.now);
    case Poll =>
      if s.node.ctx.events != [] {
        assert s.node.ctx.events == [s.node.ctx.events[0]] + s.node.ctx.events[1..];
      }
    case _ =>
  }

  /** In every run, events are polled in the order they were pushed, none twice and none skipped. */
  lemma PolledInOrder(states: seq<Polling>, run: seq<Timed>, m: nat, n: nat)
    requires IsRun(PollingStep, states, run) && m <= n < |states|
    ensures states[m].polled + states[m].node.ctx.events <= states[n].polled + states[n].node.ctx.events
  {
    forall s, t, s' | PollingStep(s, t, s') ensures History(s) <= History(s') {
      StepKeepsHistory(s, t, s');
    }
    HistoryGrows(PollingStep, History, states, run, m, n);
  }

  // ---------- Migration ----------

  /**
   The peer's address of an established connection changes only by a packet that is accepted on a
   reliable channel, and then to that packet's source.
   */
  lemma MigrationAccepts(n: Node, a: Action, now: nat, i: nat)
    requires CtxOk(n.ctx) && ActionOk(n, a) && i < |n.ctx.conns| && i < |Act(n, a, now).0.ctx.conns|
    requires n.ctx.conns[i].state.Established? && Act(n, a, now).0.ctx.conns[i].state.Established?
    requires Act(n, a, now).0.ctx.conns[i].peer != n.ctx.conns[i].peer
    ensures a.Recv? && a.packet.ctrl == DATA && a.packet.connId == n.ctx.conns[i].connId
    ensures var before, after := n.ctx.conns[i], Act(n, a, now).0.ctx.conns[i];
            var k := a.packet.channel;
            && after.peer == a.from
            && k < |n.ctx.reliable| && n.ctx.reliable[k]
            && before.channels.Some? && k < |before.channels.value|
            && after.channels.Some? && k < |after.channels.value|
            && before.channels.value[k].ackNo == a.packet.seqNo
            && after.channels.value[k].ackNo == Next32(before.channels.value[k].ackNo)
  {
    match a
    case Recv(p, from, sendOk) => ReceiveMigrates(n.ctx, p, from, now, sendOk, i);
    case Timers =>
      TimersFromConn(n.ctx, 0, now, i);
      TimerKeepsPeer(n.ctx.conns[i], now, n.ctx.reliable);
    case _ =>
  }

  lemma TimerKeepsPeer(con: Conn, now: nat, reliable: seq<bool>)
    requires con.state.Established? && ConnOk(con, reliable) && |reliable| >= 1
    ensures TimerEffect(con, now, reliable).con.peer == con.peer
  {
    TransmitFromChannel(con, 0, now, 0);
  }

  lemma ReceiveMigrates(c: Ctx, p: Packet, from: Addr, now: nat, sendOk: bool, i: nat)
    requires CtxOk(c) && i < |c.conns| && c.conns[i].state.Established?
    requires i < |Receive(c, p, from, now, sendOk).ctx.conns|
    requires Receive(c, p, from, now, sendOk).ctx.conns[i].peer != c.conns[i].peer
    ensures p.ctrl == DATA && p.connId == c.conns[i].connId
    ensures var before, after := c.conns[i], Receive(c, p, from, now, sendOk).ctx.conns[i];
            && after.peer == from && p.channel < |c.reliable| && c.reliable[p.channel]
            && after.channels.Some? && p.channel < |after.channels.value|
            && before.channels.value[p.channel].ackNo == p.seqNo
            && after.channels.value[p.channel].ackNo == Next32(p.seqNo)
  {
    if p.ctrl == DATA && FindById(c.conns, p.connId) == Some(i) && p.channel < |c.reliable| {
      assert ChanOk(c.conns[i].channels.value[p.channel], c.reliable[p.channel]);
    }
  }
}
