/**
 What a send queue holds, in every run of a context: any slots, established any number of times, any
 packets.
 */
module SendQueues {
  import opened Protocol
  import opened Endpoint
  import opened Runs
  import opened Node
  import opened Slots

  /** A node, and the payloads queued on channel `k` of slot `i` since the slot was last established. */
  datatype Sending = Sending(node: Node, log: seq<Payload>)

  function Logged(s: Sending, a: Action, now: nat, i: nat, k: nat): seq<Payload>
    requires CtxOk(s.node.ctx) && ActionOk(s.node, a)
  {
    if i >= |s.node.ctx.conns| || !s.node.ctx.conns[i].state.Established? then []
    else if a.SendData? && a.slot == i && a.channel == k && Send(s.node.ctx, a.slot, a.channel, a.data, now).1.Success?
    then s.log + [a.data]
    else s.log
  }

  ghost predicate SendingStep(i: nat, k: nat, s: Sending, t: Timed, s': Sending) {
    AnyStep(s.node, t, s'.node) && s'.log == Logged(s, t.action, t.now, i, k)
  }

  /** Entry `j` of a queue of `length`, when the next number to be given out is `next`. */
  ghost predicate EntryOwed(e: Entry, k: nat, id: ConnId, next: U32, log: seq<Payload>, length: nat, j: nat) {
    && j < length <= |log| && length <= QUEUE_CAPACITY
    && e.packet.ctrl == DATA && e.packet.channel == k && e.packet.connId == id
    && e.packet.seqNo == (next + MODULUS - length + j) % MODULUS
    && 1 <= |e.packet.payload| <= MTU && e.packet.payload == log[|log| - length + j]
  }

  ghost predicate QueueOwed(chan: Chan, k: nat, id: ConnId, log: seq<Payload>) {
    && |chan.sendQueue| <= |log| && |chan.sendQueue| <= QUEUE_CAPACITY
    && forall j :: 0 <= j < |chan.sendQueue| ==>
         EntryOwed(chan.sendQueue[j], k, id, chan.seqNo, log, |chan.sendQueue|, j)
  }

  ghost predicate SendingOk(i: nat, k: nat, s: Sending) {
    && CtxOk(s.node.ctx)
    && (Up(s.node.ctx, i, k) ==> QueueOwed(ChanAt(s.node.ctx, i, k), k, s.node.ctx.conns[i].connId, s.log))
  }

  // ---------- Every move keeps the queue in order ----------

  lemma DequeuedOwed(chan: Chan, after: Chan, k: nat, id: ConnId, log: seq<Payload>)
    requires QueueOwed(chan, k, id, log) && chan.sendQueue != []
    requires after.sendQueue == chan.sendQueue[1..] && after.seqNo == chan.seqNo
    ensures QueueOwed(after, k, id, log)
  {
    forall j | 0 <= j < |after.sendQueue|
      ensures EntryOwed(after.sendQueue[j], k, id, after.seqNo, log, |after.sendQueue|, j)
    {
      assert EntryOwed(chan.sendQueue[j + 1], k, id, chan.seqNo, log, |chan.sendQueue|, j + 1);
    }
  }

  /** A number counted back from the next one is the same after both moved on. */
  lemma SameNumber(next: U32, length: nat, j: nat)
    requires j <= length < MODULUS
    ensures (Next32(next) + MODULUS - (length + 1) + j) % MODULUS == (next + MODULUS - length + j) % MODULUS
  {
  }

  lemma LastNumber(next: U32, length: nat)
    requires length < MODULUS
    ensures (Next32(next) + MODULUS - (length + 1) + length) % MODULUS == next
  {
  }

  lemma SentOwed(chan: Chan, k: nat, con: Conn, log: seq<Payload>, data: Payload, now: nat)
    requires k < 256 && QueueOwed(chan, k, con.connId, log) && |chan.sendQueue| < QUEUE_CAPACITY && 1 <= |data| <= MTU
    ensures QueueOwed(chan.(sendQueue := chan.sendQueue + [Entry(DataPacket(con, k, chan, data), now, 0)],
                            seqNo := Next32(chan.seqNo)), k, con.connId, log + [data])
  {
    var queue := chan.sendQueue + [Entry(DataPacket(con, k, chan, data), now, 0)];
    var n := |chan.sendQueue|;
    forall j | 0 <= j < |queue|
      ensures EntryOwed(queue[j], k, con.connId, Next32(chan.seqNo), log + [data], |queue|, j)
    {
      if j < n {
        assert EntryOwed(chan.sendQueue[j], k, con.connId, chan.seqNo, log, n, j);
        SameNumber(chan.seqNo, n, j);
      } else {
        LastNumber(chan.seqNo, n);
      }
    }
  }

  lemma TickedOwed(chan: Chan, peer: Addr, now: nat, k: nat, id: ConnId, log: seq<Payload>)
    requires QueueOwed(chan, k, id, log)
    ensures QueueOwed(TransmitHead(chan, peer, now).chan, k, id, log)
  {
    var after := TransmitHead(chan, peer, now).chan;
    if |after.sendQueue| < |chan.sendQueue| {
      DequeuedOwed(chan, after, k, id, log);
    } else {
      forall j | 0 <= j < |after.sendQueue|
        ensures EntryOwed(after.sendQueue[j], k, id, after.seqNo, log, |after.sendQueue|, j)
      {
        assert EntryOwed(chan.sendQueue[j], k, id, chan.seqNo, log, |chan.sendQueue|, j);
      }
    }
  }

  lemma MovedOwed(c: Ctx, a: Action, now: nat, i: nat, k: nat, m: Move, after: Chan, log: seq<Payload>)
    requires Up(c, i, k) && Causes(c, a, now, i, k, m) && Moved(ChanAt(c, i, k), c.conns[i].peer, after, m)
    requires QueueOwed(ChanAt(c, i, k), k, c.conns[i].connId, log)
    ensures QueueOwed(after, k, c.conns[i].connId, if m.Sent? then log + [a.data] else log)
  {
    var chan := ChanAt(c, i, k);
    match m
    case Sent(_) => SentOwed(chan, k, c.conns[i], log, a.data, now);
    case Ticked(_) => TickedOwed(chan, c.conns[i].peer, now, k, c.conns[i].connId, log);
    case Acked => DequeuedOwed(chan, after, k, c.conns[i].connId, log);
    case _ =>
  }

  /** The log grows exactly when the queue does. */
  lemma LoggedIffSent(s: Sending, a: Action, now: nat, i: nat, k: nat, c': Ctx, m: Move)
    requires CtxOk(s.node.ctx) && ActionOk(s.node, a) && c' == Act(s.node, a, now).0.ctx
    requires Stays(s.node.ctx, a, now, c', i, k, m)
    ensures Logged(s, a, now, i, k) == if m.Sent? then s.log + [a.data] else s.log
  {
    if a.SendData? && a.slot == i && a.channel == k && Send(s.node.ctx, a.slot, a.channel, a.data, now).1.Success? {
      var before, after := ChanAt(s.node.ctx, i, k), ChanAt(c', i, k);
      assert |after.sendQueue| == |before.sendQueue| + 1;
    }
  }

  lemma SendingStepOk(i: nat, k: nat, s: Sending, t: Timed, s': Sending)
    requires SendingStep(i, k, s, t, s') && SendingOk(i, k, s)
    ensures SendingOk(i, k, s')
  {
    ActOk(s.node, t.action, t.now);
    if Up(s'.node.ctx, i, k) {
      ActKeepsSlots(s.node, t.action, t.now);
      if s.node.ctx.conns[i].state.Established? {
        StaysOwed(i, k, s, t, s');
      } else {
        ActOpens(s.node, t.action, t.now, i, k);
      }
    }
  }

  lemma StaysOwed(i: nat, k: nat, s: Sending, t: Timed, s': Sending)
    requires SendingStep(i, k, s, t, s') && SendingOk(i, k, s) && CtxOk(s'.node.ctx)
    requires Up(s.node.ctx, i, k) && Up(s'.node.ctx, i, k)
    ensures SendingOk(i, k, s')
  {
    var m := ActStays(s.node, t.action, t.now, i, k);
    LoggedIffSent(s, t.action, t.now, i, k, s'.node.ctx, m);
    MovedOwed(s.node.ctx, t.action, t.now, i, k, m, ChanAt(s'.node.ctx, i, k), s.log);
  }

  /**
   In every run of a context, the send queue of every channel of every established slot holds the payloads
   queued last since the slot was established, in order, as DATA of that channel and connection, under
   consecutive numbers ending just before the next one to be given out.
   */
  lemma SendQueueConsecutive(states: seq<Sending>, run: seq<Timed>, slots: nat, iss: U32, server: Addr, n: nat, i: nat, k: nat, j: nat)
    requires IsRun((s, t, s') => SendingStep(i, k, s, t, s'), states, run) && n < |states|
    requires var c := states[0].node.ctx; c == Created(slots, c.reliable, c.eventCapacity, iss, server)
    requires slots >= 1 && 1 <= |states[0].node.ctx.reliable| <= 255
    requires Up(states[n].node.ctx, i, k) && j < |ChanAt(states[n].node.ctx, i, k).sendQueue|
    ensures var chan, log := ChanAt(states[n].node.ctx, i, k), states[n].log;
            var p := chan.sendQueue[j].packet;
            && |chan.sendQueue| <= |log| && |chan.sendQueue| <= QUEUE_CAPACITY
            && p.ctrl == DATA && p.channel == k && p.connId == states[n].node.ctx.conns[i].connId
            && p.seqNo == (chan.seqNo + MODULUS - |chan.sendQueue| + j) % MODULUS
            && p.payload == log[|log| - |chan.sendQueue| + j] && 1 <= |p.payload| <= MTU
  {
    var step := (s: Sending, t: Timed, s': Sending) => SendingStep(i, k, s, t, s');
    assert Preserves(step, s => SendingOk(i, k, s)) by {
      forall s: Sending, t: Timed, s': Sending | step(s, t, s') && SendingOk(i, k, s) ensures SendingOk(i, k, s') {
        SendingStepOk(i, k, s, t, s');
      }
    }
    InvariantHolds(step, s => SendingOk(i, k, s), states, run, n);
    var chan := ChanAt(states[n].node.ctx, i, k);
    assert EntryOwed(chan.sendQueue[j], k, states[n].node.ctx.conns[i].connId, chan.seqNo, states[n].log, |chan.sendQueue|, j);
  }

  // ---------- Every packet names its channel ----------

  ghost predicate QueueTagged(queue: seq<Entry>, k: nat) {
    forall j :: 0 <= j < |queue| ==> queue[j].packet.ctrl == DATA && queue[j].packet.channel == k
  }

  /** Of every established slot. */
  ghost predicate Tagged(c: Ctx) {
    forall i: nat, k: nat :: Up(c, i, k) ==> QueueTagged(ChanAt(c, i, k).sendQueue, k)
  }

  lemma MovedTagged(c: Ctx, a: Action, now: nat, i: nat, k: nat, m: Move, after: Chan)
    requires Up(c, i, k) && Causes(c, a, now, i, k, m) && Moved(ChanAt(c, i, k), c.conns[i].peer, after, m)
    requires QueueTagged(ChanAt(c, i, k).sendQueue, k)
    ensures QueueTagged(after.sendQueue, k)
  {
    var queue := ChanAt(c, i, k).sendQueue;
    if queue != [] {
      assert forall j :: 0 <= j < |queue[1..]| ==> queue[1..][j] == queue[j + 1];
    }
  }

  lemma ActTagged(n: Node, a: Action, now: nat)
    requires CtxOk(n.ctx) && ActionOk(n, a) && Tagged(n.ctx)
    ensures Tagged(Act(n, a, now).0.ctx)
  {
    var c' := Act(n, a, now).0.ctx;
    forall i: nat, k: nat | Up(c', i, k) ensures QueueTagged(ChanAt(c', i, k).sendQueue, k) {
      ActKeepsSlots(n, a, now);
      if n.ctx.conns[i].state.Established? {
        assert ConnOk(n.ctx.conns[i], n.ctx.reliable);
        var m := ActStays(n, a, now, i, k);
        MovedTagged(n.ctx, a, now, i, k, m, ChanAt(c', i, k));
      } else {
        ActOpens(n, a, now, i, k);
      }
    }
  }
}
