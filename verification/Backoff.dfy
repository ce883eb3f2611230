/**
 How long the library tries. The runs are of a whole context, ticked at moments at most `gap` apart, in which
 no packet is for one of its connections: other connections live, and the application goes on calling.
 */
module Backoff {
  import opened Wrappers
  import opened Protocol
  import opened Endpoint
  import opened Runs
  import opened Node
  import opened Slots
  import opened SendQueues
  import opened Lifecycle
  import opened Notices

  /** The packet is none of the connection's business: it is for another slot, or for none. */
  predicate Elsewhere(con: Conn, slot: nat, p: Packet, from: Addr) {
    if p.ctrl == SYN && p.connId.id == 0xFFFF then con.peer != from && !con.state.Closed?
    else if p.ctrl == SYN_ACK then slot != 0
    else IsAddressed(p) ==> p.connId != con.connId
  }

  lemma ReceiveElsewhere(c: Ctx, p: Packet, from: Addr, now: nat, sendOk: bool, slot: nat)
    requires CtxOk(c) && slot < |c.conns| && Elsewhere(c.conns[slot], slot, p, from)
    ensures var c' := Receive(c, p, from, now, sendOk).ctx;
            |c'.conns| == |c.conns| && c'.reliable == c.reliable && c'.conns[slot] == c.conns[slot]
  {
  }

  ghost predicate AllElsewhere(con: Conn, slot: nat, inbox: seq<Arrival>) {
    forall i :: 0 <= i < |inbox| && inbox[i].Valid? ==> Elsewhere(con, slot, inbox[i].packet, inbox[i].from)
  }

  lemma {:induction false} InboxElsewhere(c: Ctx, inbox: seq<Arrival>, slot: nat)
    requires CtxOk(c) && slot < |c.conns| && AllElsewhere(c.conns[slot], slot, inbox)
    ensures var c' := ReceiveAll(c, inbox).ctx;
            CtxOk(c') && |c'.conns| == |c.conns| && c'.reliable == c.reliable && c'.conns[slot] == c.conns[slot]
    decreases |inbox|
  {
    if inbox != [] {
      var c' := c;
      if inbox[0].Valid? {
        var m := inbox[0];
        ReceiveElsewhere(c, m.packet, m.from, m.now, m.sendOk, slot);
        ReceiveOk(c, m.packet, m.from, m.now, m.sendOk);
        c' := Receive(c, m.packet, m.from, m.now, m.sendOk).ctx;
      }
      assert forall i :: 0 <= i < |inbox[1..]| ==> inbox[1..][i] == inbox[i + 1];
      InboxElsewhere(c', inbox[1..], slot);
    }
  }

  /**
   A step of these runs is what a tick of the whole context does to the slot when every packet it handles is
   for others: the slot moves by its timers alone, and what the tick sends is the answers to those packets and
   then, slot by slot, what the timers send.
   */
  lemma TickOfContext(c: Ctx, inbox: seq<Arrival>, now: nat, slot: nat)
    requires CtxOk(c) && slot < |c.conns| && AllElsewhere(c.conns[slot], slot, inbox)
    ensures var tick := Tick(c, inbox, now);
            slot < |tick.ctx.conns| && tick.ctx.conns[slot] == TimerEffect(c.conns[slot], now, c.reliable).con
    ensures var received := ReceiveAll(c, inbox[..Consumed(inbox, RECV_LIMIT_PER_TICK)]);
            && CtxOk(received.ctx)
            && Tick(c, inbox, now).sent == received.sent + SentFrom(received.ctx, 0, now)
            && SlotSent(received.ctx, Timers, now, slot) == TimerEffect(c.conns[slot], now, c.reliable).sent
  {
    var handled := inbox[..Consumed(inbox, RECV_LIMIT_PER_TICK)];
    InboxElsewhere(c, handled, slot);
    var received := ReceiveAll(c, handled).ctx;
    TimersSentBySlots(received, now, received, 0);
    TimersFromConn(received, 0, now, slot);
  }

  /** Such packets tell the owner of the slot nothing. */
  lemma ElsewhereTellsNothing(c: Ctx, m: Arrival, slot: nat)
    requires CtxOk(c) && slot < |c.conns| && m.Valid? && Elsewhere(c.conns[slot], slot, m.packet, m.from)
    ensures var c' := Receive(c, m.packet, m.from, m.now, m.sendOk).ctx;
            |c'.conns| == |c.conns| && Told(c, Recv(m.packet, m.from, m.sendOk), m.now, c', slot) == []
  {
    ReceiveElsewhere(c, m.packet, m.from, m.now, m.sendOk, slot);
  }

  // ---------- Runs of a context with a silent peer ----------

  /** A whole tick, or a call of the application. */
  datatype Doing = TickAt(inbox: seq<Arrival>, now: nat) | CallAt(action: Action, now: nat)

  /** A context, what its timers have sent for one slot and told its owner, and when it was last ticked. */
  datatype Watched = Watched(node: Node, sent: seq<Datagram>, notes: seq<Note>, last: nat)

  /** Any call, except closing the slot's connection or connecting from it. */
  ghost predicate OtherCall(n: Node, a: Action, slot: nat) {
    && ActionOk(n, a) && !a.Recv? && !a.Timers?
    && (a.CloseConn? ==> a.slot != slot) && (a.ConnectTo? ==> slot != 0)
  }

  ghost predicate SilentStep(slot: nat, gap: nat, w: Watched, d: Doing, w': Watched) {
    && CtxOk(w.node.ctx) && slot < |w.node.ctx.conns|
    && match d
       case TickAt(inbox, now) =>
         && AllElsewhere(w.node.ctx.conns[slot], slot, inbox) && w.last <= now <= w.last + gap
         && w'.node == w.node.(ctx := Tick(w.node.ctx, inbox, now).ctx) && w'.last == now
         && var received := ReceiveAll(w.node.ctx, inbox[..Consumed(inbox, RECV_LIMIT_PER_TICK)]).ctx;
            && CtxOk(received) && w'.sent == w.sent + SlotSent(received, Timers, now, slot)
            && slot < |received.conns| == |w'.node.ctx.conns|
            && w'.notes == w.notes + Told(received, Timers, now, w'.node.ctx, slot)
       case CallAt(a, now) =>
         && OtherCall(w.node, a, slot)
         && w'.node == Act(w.node, a, now).0 && w'.sent == w.sent && w'.notes == w.notes && w'.last == w.last
  }

  ghost function Silence(slot: nat, gap: nat): (Watched, Doing, Watched) -> bool {
    (w, d, w') => SilentStep(slot, gap, w, d, w')
  }

  /** The watched connection alone. */
  datatype Watch = Watch(con: Conn, sent: seq<Datagram>, notes: seq<Note>, last: nat)

  ghost function Seen(w: Watched, slot: nat): Watch
    requires slot < |w.node.ctx.conns|
  {
    Watch(w.node.ctx.conns[slot], w.sent, w.notes, w.last)
  }

  /** Its timers. */
  ghost predicate TickStep(reliable: seq<bool>, gap: nat, w: Watch, now: nat, w': Watch) {
    && ConnOk(w.con, reliable)
    && w.last <= now <= w.last + gap
    && w'.con == TimerEffect(w.con, now, reliable).con
    && w'.sent == w.sent + TimerEffect(w.con, now, reliable).sent
    && w'.notes == w.notes + ToldOfTimers(now, w.con, w'.con)
    && w'.last == now
  }

  /** A call: it may fill send queues and empty receive queues. */
  ghost predicate CallStep(w: Watch, w': Watch) {
    && w'.con == w.con.(channels := w'.con.channels) && (QueuesHoldData(w.con) ==> QueuesHoldData(w'.con))
    && w'.sent == w.sent && w'.notes == w.notes && w'.last == w.last
  }

  lemma SendOnSlot(c: Ctx, i: nat, channel: U8, data: Payload, now: nat, slot: nat)
    requires CtxOk(c) && slot < |c.conns| && i < |c.conns|
    ensures var c' := Send(c, i, channel, data, now).0;
            && |c'.conns| == |c.conns|
            && var con, con' := c.conns[slot], c'.conns[slot];
               con' == con.(channels := con'.channels) && (QueuesHoldData(con) ==> QueuesHoldData(con'))
  {
  }

  lemma PopOnSlot(c: Ctx, i: nat, channel: U8, buflen: nat, slot: nat)
    requires CtxOk(c) && slot < |c.conns| && i < |c.conns| && c.conns[i].channels.Some?
    ensures var c' := PopData(c, i, channel, buflen).0;
            && |c'.conns| == |c.conns|
            && var con, con' := c.conns[slot], c'.conns[slot];
               con' == con.(channels := con'.channels) && (QueuesHoldData(con) ==> QueuesHoldData(con'))
  {
  }

  lemma CallOnSlot(n: Node, a: Action, now: nat, slot: nat)
    requires CtxOk(n.ctx) && slot < |n.ctx.conns| && OtherCall(n, a, slot)
    ensures var c' := Act(n, a, now).0.ctx;
            && |c'.conns| == |n.ctx.conns|
            && var con, con' := n.ctx.conns[slot], c'.conns[slot];
               con' == con.(channels := con'.channels) && (QueuesHoldData(con) ==> QueuesHoldData(con'))
  {
    match a
    case SendData(i, channel, data) => SendOnSlot(n.ctx, i, channel, data, now, slot);
    case Pop(i, channel, buflen) => PopOnSlot(n.ctx, i, channel, buflen, slot);
    case _ =>
  }

  /** What a step of the context is to the slot. */
  lemma StepSeen(slot: nat, gap: nat, w: Watched, d: Doing, w': Watched)
    requires SilentStep(slot, gap, w, d, w')
    ensures slot < |w'.node.ctx.conns|
    ensures if d.TickAt? then TickStep(w.node.ctx.reliable, gap, Seen(w, slot), d.now, Seen(w', slot))
            else CallStep(Seen(w, slot), Seen(w', slot))
  {
    match d
    case TickAt(inbox, now) =>
      TickOfContext(w.node.ctx, inbox, now, slot);
      InboxElsewhere(w.node.ctx, inbox[..Consumed(inbox, RECV_LIMIT_PER_TICK)], slot);
    case CallAt(a, now) => CallOnSlot(w.node, a, now, slot);
  }

  // ---------- SYN, SYN|ACK and FIN ----------

  predicate Trying(con: Conn) {
    con.state.SynSent? || con.state.SynRcvd? || con.state.FinSent?
  }

  /** The packet a connection repeats. */
  function Repeated(con: Conn): Packet {
    if con.state.SynSent? then HandshakePacket(con, SYN)
    else if con.state.SynRcvd? then HandshakePacket(con, SYN_ACK)
    else Packet(FIN, 0, con.connId, 0, 0, [])
  }

  /** The waits after the first `r` attempts, in milliseconds. */
  function Waits(r: nat): nat {
    if r == 0 then 0 else Waits(r - 1) + RETRY_TIMEOUT * r
  }

  /** How late `r` ticks can be in all. */
  function Slack(r: nat, gap: nat): nat {
    if r == 0 then 0 else Slack(r - 1, gap) + gap
  }

  lemma TryingTick(con: Conn, now: nat, reliable: seq<bool>)
    requires Trying(con) && ConnOk(con, reliable)
    ensures var e := TimerEffect(con, now, reliable);
            if !Expired(con.time, now) then e.con == con && e.sent == []
            else if con.retry >= MAX_RETRY then e.con.state.Closed? && e.sent == []
            else e.con == con.(time := now + RETRY_TIMEOUT * (con.retry + 1), retry := con.retry + 1)
                 && e.sent == [Datagram(con.peer, Repeated(con))]
  {
  }

  /** After the first attempt, made at `first`. `con` is the connection as it was then. */
  ghost predicate TryingInv(con: Conn, first: int, gap: nat, w: Watch) {
    if w.con.state.Closed? then
      && |w.sent| == MAX_RETRY && w.last >= first + Waits(MAX_RETRY) && Repeats(con, w.sent)
      && w.notes == Farewell(con.state)
    else
      && w.notes == []
      && w.con == con.(time := w.con.time, retry := w.con.retry, channels := w.con.channels)
      && 1 <= w.con.retry <= MAX_RETRY && |w.sent| == w.con.retry && Repeats(con, w.sent)
      && first + Waits(w.con.retry) <= w.con.time <= first + Waits(w.con.retry) + Slack(w.con.retry - 1, gap)
      && first <= w.last < w.con.time
  }

  /** What the owner is told of giving up: a client, and who closes; a server's slot has no owner yet. */
  function Farewell(state: State): seq<Note> {
    if state.SynRcvd? then [] else [Disconnected(Timeout)]
  }

  /** Every attempt is the same packet to the same address. */
  ghost predicate Repeats(con: Conn, sent: seq<Datagram>) {
    forall i :: 0 <= i < |sent| ==> sent[i] == Datagram(con.peer, Repeated(con))
  }

  lemma OneMoreWait(r: nat, gap: nat)
    ensures Waits(r + 1) == Waits(r) + RETRY_TIMEOUT * (r + 1)
    ensures Slack(r + 1, gap) == Slack(r, gap) + gap
  {
  }

  /** One more attempt. */
  lemma TryingAgain(con: Conn, first: int, gap: nat, w: Watch, now: nat, w': Watch)
    requires Trying(con) && !w.con.state.Closed? && TryingInv(con, first, gap, w)
    requires w.con.retry < MAX_RETRY && w.con.time <= now <= w.last + gap && w'.last == now
    requires w'.con == w.con.(time := now + RETRY_TIMEOUT * (w.con.retry + 1), retry := w.con.retry + 1)
    requires w'.sent == w.sent + [Datagram(con.peer, Repeated(con))] && w'.notes == w.notes
    ensures TryingInv(con, first, gap, w')
  {
    OneMoreWait(w.con.retry - 1, gap);
    OneMoreWait(w.con.retry, gap);
  }

  /** No more attempts. */
  lemma TryingNoMore(con: Conn, first: int, gap: nat, w: Watch, now: nat, w': Watch)
    requires Trying(con) && !w.con.state.Closed? && TryingInv(con, first, gap, w)
    requires w.con.retry >= MAX_RETRY && w.con.time <= now <= w.last + gap && w'.last == now
    requires w'.con.state.Closed? && w'.sent == w.sent && w'.notes == w.notes + Farewell(con.state)
    ensures TryingInv(con, first, gap, w')
    ensures first + Waits(MAX_RETRY) <= now <= first + Waits(MAX_RETRY) + Slack(MAX_RETRY, gap)
  {
    OneMoreWait(MAX_RETRY - 1, gap);
  }

  lemma TryingStep(con: Conn, first: int, gap: nat, reliable: seq<bool>, w: Watch, now: nat, w': Watch)
    requires Trying(con) && TickStep(reliable, gap, w, now, w') && TryingInv(con, first, gap, w)
    ensures TryingInv(con, first, gap, w')
    ensures !w.con.state.Closed? && w'.con.state.Closed? ==>
              first + Waits(MAX_RETRY) <= now <= first + Waits(MAX_RETRY) + Slack(MAX_RETRY, gap)
  {
    if Trying(w.con) {
      TryingTick(w.con, now, reliable);
      if Expired(w.con.time, now) {
        if w.con.retry < MAX_RETRY {
          TryingAgain(con, first, gap, w, now, w');
        } else {
          TryingNoMore(con, first, gap, w, now, w');
        }
      }
    }
  }

  /** So every step of a context with a silent peer. */
  lemma SilentTry(con: Conn, first: int, slot: nat, gap: nat, w: Watched, d: Doing, w': Watched)
    requires SilentStep(slot, gap, w, d, w') && Trying(con) && TryingInv(con, first, gap, Seen(w, slot))
    ensures slot < |w'.node.ctx.conns| && TryingInv(con, first, gap, Seen(w', slot))
    ensures !Seen(w, slot).con.state.Closed? && Seen(w', slot).con.state.Closed? ==>
              d.TickAt? && first + Waits(MAX_RETRY) <= d.now <= first + Waits(MAX_RETRY) + Slack(MAX_RETRY, gap)
  {
    StepSeen(slot, gap, w, d, w');
    if d.TickAt? {
      TryingStep(con, first, gap, w.node.ctx.reliable, Seen(w, slot), d.now, Seen(w', slot));
    }
  }

  lemma FirstAttempt(slot: nat, gap: nat, w: Watched, d: Doing, w': Watched)
    requires SilentStep(slot, gap, w, d, w') && d.TickAt?
    requires var con := Seen(w, slot).con; Trying(con) && con.retry == 0 && Expired(con.time, w.last)
    requires w.sent == [] && w.notes == []
    ensures slot < |w'.node.ctx.conns| && TryingInv(Seen(w, slot).con, d.now, gap, Seen(w', slot))
  {
    StepSeen(slot, gap, w, d, w');
    TryingTick(Seen(w, slot).con, d.now, w.node.ctx.reliable);
    assert Waits(1) == 100;
  }

  lemma FiveWaits(gap: nat)
    ensures Waits(MAX_RETRY) == 1500
    ensures Slack(MAX_RETRY, gap) == 5 * gap
  {
    assert Waits(1) == 100;
    assert Waits(2) == 300;
    assert Waits(3) == 600;
    assert Waits(4) == 1000;
    assert Slack(1, gap) == gap;
    assert Slack(2, gap) == 2 * gap;
    assert Slack(3, gap) == 3 * gap;
    assert Slack(4, gap) == 4 * gap;
  }

  lemma {:induction false} TryingHolds(states: seq<Watched>, run: seq<Doing>, slot: nat, gap: nat, k: nat)
    requires IsRun(Silence(slot, gap), states, run) && 1 <= k < |states|
    requires slot < |states[0].node.ctx.conns| && slot < |states[1].node.ctx.conns| && run[0].TickAt?
    requires var con := Seen(states[0], slot).con; Trying(con) && TryingInv(con, run[0].now, gap, Seen(states[1], slot))
    ensures slot < |states[k].node.ctx.conns|
    ensures TryingInv(Seen(states[0], slot).con, run[0].now, gap, Seen(states[k], slot))
    decreases k
  {
    if k > 1 {
      TryingHolds(states, run, slot, gap, k - 1);
      assert Silence(slot, gap)(states[k - 1], run[k - 1], states[k]);
      SilentTry(Seen(states[0], slot).con, run[0].now, slot, gap, states[k - 1], run[k - 1], states[k]);
    }
  }

  /** The waits and the lateness grow with the attempts. */
  lemma {:induction false} WaitsUpTo(r: nat, gap: nat)
    ensures r <= MAX_RETRY ==> Waits(r) <= Waits(MAX_RETRY)
    ensures 1 <= r <= MAX_RETRY ==> Slack(r - 1, gap) + gap <= Slack(MAX_RETRY, gap)
    decreases MAX_RETRY - r
  {
    if r < MAX_RETRY {
      WaitsUpTo(r + 1, gap);
    }
  }

  /**
   At some moment after the first attempt, made at `first`: one to five datagrams so far, all of them `d`; until
   1500 ms have passed the connection is as it was, from 1500 ms + 5 gaps on it is closed, and then there were
   five, and the owner has been told once.
   */
  ghost predicate TriedSoFar(d: Datagram, state: State, first: int, gap: nat, w: Watch) {
    && (forall i :: 0 <= i < |w.sent| ==> w.sent[i] == d) && 1 <= |w.sent| <= 5
    && (w.con.state.Closed? ==> |w.sent| == 5)
    && (w.con.state == state || w.con.state.Closed?)
    && (w.last < first + 1500 ==> w.con.state == state)
    && (w.last >= first + 1500 + 5 * gap ==> w.con.state.Closed?)
    && w.notes == if w.con.state.Closed? then Farewell(state) else []
  }

  lemma TryingMeans(con: Conn, first: int, gap: nat, w: Watch)
    requires Trying(con) && TryingInv(con, first, gap, w)
    ensures TriedSoFar(Datagram(con.peer, Repeated(con)), con.state, first, gap, w)
  {
    FiveWaits(gap);
    WaitsUpTo(w.con.retry, gap);
  }

  /** A step that closes the connection. */
  ghost predicate ClosesBetween(slot: nat, w: Watched, d: Doing, w': Watched, early: int, late: int) {
    && slot < |w.node.ctx.conns| && slot < |w'.node.ctx.conns|
    && (Seen(w', slot).con.state.Closed? && !Seen(w, slot).con.state.Closed? ==> d.TickAt? && early <= d.now <= late)
  }

  lemma TryingCloses(states: seq<Watched>, run: seq<Doing>, slot: nat, gap: nat, k: nat)
    requires IsRun(Silence(slot, gap), states, run) && 1 < k < |states|
    requires slot < |states[0].node.ctx.conns| && slot < |states[1].node.ctx.conns| && run[0].TickAt?
    requires var con := Seen(states[0], slot).con; Trying(con) && TryingInv(con, run[0].now, gap, Seen(states[1], slot))
    ensures ClosesBetween(slot, states[k - 1], run[k - 1], states[k], run[0].now + 1500, run[0].now + 1500 + 5 * gap)
  {
    TryingHolds(states, run, slot, gap, k - 1);
    FiveWaits(gap);
    assert Silence(slot, gap)(states[k - 1], run[k - 1], states[k]);
    SilentTry(Seen(states[0], slot).con, run[0].now, slot, gap, states[k - 1], run[k - 1], states[k]);
  }

  /** The first `f` steps are calls, the next is a tick. */
  ghost predicate TicksFirstAt(run: seq<Doing>, f: nat) {
    f < |run| && run[f].TickAt? && forall j :: 0 <= j < f ==> run[j].CallAt?
  }

  /** What giving up looks like from outside, at step `k` of a run whose first tick is step `f`. */
  ghost predicate GaveUp(d: Datagram, state: State, slot: nat, states: seq<Watched>, run: seq<Doing>,
                         gap: nat, f: nat, k: nat)
    requires TicksFirstAt(run, f) && f < k < |states| == |run| + 1
  {
    && slot < |states[k].node.ctx.conns|
    && TriedSoFar(d, state, run[f].now, gap, Seen(states[k], slot))
    && ClosesBetween(slot, states[k - 1], run[k - 1], states[k], run[f].now + 1500, run[f].now + 1500 + 5 * gap)
  }

  lemma GivesUpAtOnce(states: seq<Watched>, run: seq<Doing>, slot: nat, gap: nat, k: nat)
    requires IsRun(Silence(slot, gap), states, run) && 1 <= k < |states| && run[0].TickAt?
    requires slot < |states[0].node.ctx.conns| && states[0].sent == [] && states[0].notes == []
    requires var con := Seen(states[0], slot).con; Trying(con) && con.retry == 0 && Expired(con.time, states[0].last)
    ensures var con := Seen(states[0], slot).con;
            GaveUp(Datagram(con.peer, Repeated(con)), con.state, slot, states, run, gap, 0, k)
  {
    assert Silence(slot, gap)(states[0], run[0], states[1]);
    FirstAttempt(slot, gap, states[0], run[0], states[1]);
    TryingHolds(states, run, slot, gap, k);
    TryingMeans(Seen(states[0], slot).con, run[0].now, gap, Seen(states[k], slot));
    if k > 1 {
      TryingCloses(states, run, slot, gap, k);
    }
  }

  /** Nothing but queues changes before the first tick. */
  lemma {:induction false} CallsKeep(states: seq<Watched>, run: seq<Doing>, slot: nat, gap: nat, f: nat)
    requires IsRun(Silence(slot, gap), states, run) && f < |states| && slot < |states[0].node.ctx.conns|
    requires forall j :: 0 <= j < f ==> run[j].CallAt?
    ensures slot < |states[f].node.ctx.conns|
    ensures Seen(states[f], slot)
         == Seen(states[0], slot).(con := Seen(states[0], slot).con.(channels := Seen(states[f], slot).con.channels))
  {
    if f > 0 {
      CallsKeep(states, run, slot, gap, f - 1);
      assert Silence(slot, gap)(states[f - 1], run[f - 1], states[f]);
      StepSeen(slot, gap, states[f - 1], run[f - 1], states[f]);
    }
  }

  lemma LaterGivesUp(d: Datagram, state: State, slot: nat, states: seq<Watched>, run: seq<Doing>, gap: nat, f: nat, k: nat)
    requires TicksFirstAt(run, f) && f < k < |states| == |run| + 1
    requires GaveUp(d, state, slot, states[f..], run[f..], gap, 0, k - f)
    ensures GaveUp(d, state, slot, states, run, gap, f, k)
  {
  }

  lemma SuffixIsRun(states: seq<Watched>, run: seq<Doing>, slot: nat, gap: nat, f: nat)
    requires IsRun(Silence(slot, gap), states, run) && f < |states|
    ensures IsRun(Silence(slot, gap), states[f..], run[f..])
  {
    forall j | 0 <= j < |run| - f ensures Silence(slot, gap)(states[f..][j], run[f..][j], states[f..][j + 1]) {
      assert Silence(slot, gap)(states[f + j], run[f + j], states[f + j + 1]);
    }
  }

  /**
   A connect, an accept or a close that is never answered makes exactly five attempts, all alike, and
   closes between 1500 ms and 1500 ms + 5 gaps after the first, whatever else the context is doing; whoever
   connects or closes is then told once, of a timeout.
   */
  lemma GivesUp(states: seq<Watched>, run: seq<Doing>, slot: nat, gap: nat, f: nat, k: nat)
    requires IsRun(Silence(slot, gap), states, run) && TicksFirstAt(run, f) && f < k < |states|
    requires slot < |states[0].node.ctx.conns| && states[0].sent == [] && states[0].notes == []
    requires var con := Seen(states[0], slot).con; Trying(con) && con.retry == 0 && Expired(con.time, states[0].last)
    ensures var con := Seen(states[0], slot).con;
            GaveUp(Datagram(con.peer, Repeated(con)), con.state, slot, states, run, gap, f, k)
  {
    CallsKeep(states, run, slot, gap, f);
    SuffixIsRun(states, run, slot, gap, f);
    var con := Seen(states[0], slot).con;
    GivesUpAtOnce(states[f..], run[f..], slot, gap, k - f);
    LaterGivesUp(Datagram(con.peer, Repeated(con)), con.state, slot, states, run, gap, f, k);
  }

  // ---------- From the call, or the packet, that begins it ----------

  /** The runs that start right after an action taken at `now`. */
  ghost predicate After(n: Node, a: Action, now: nat, w: Watched) {
    && CtxOk(n.ctx) && ActionOk(n, a) && now > 0
    && w == Watched(Act(n, a, now).0, [], [], now)
  }

  /**
   From the call: a connect that is never answered sends exactly five SYNs, with the unassigned identifier and the
   first counter, to the configured address, whatever became of the slot before.
   */
  lemma ConnectGivesUp(n: Node, now: nat, states: seq<Watched>, run: seq<Doing>, gap: nat, f: nat, k: nat)
    requires IsRun(Silence(0, gap), states, run) && TicksFirstAt(run, f) && f < k < |states|
    requires After(n, ConnectTo(true), now, states[0])
    ensures GaveUp(Datagram(n.ctx.server, Packet(SYN, 0, UNASSIGNED, n.ctx.iss, 0, [])), SynSent, 0, states, run, gap, f, k)
  {
    GivesUp(states, run, 0, gap, f, k);
  }

  /** A close that is never answered sends exactly five FINs. */
  lemma CloseGivesUp(n: Node, slot: nat, now: nat, states: seq<Watched>, run: seq<Doing>, gap: nat, f: nat, k: nat)
    requires IsRun(Silence(slot, gap), states, run) && TicksFirstAt(run, f) && f < k < |states|
    requires After(n, CloseConn(slot), now, states[0]) && n.ctx.conns[slot].state.Established?
    ensures var con := n.ctx.conns[slot];
            GaveUp(Datagram(con.peer, Packet(FIN, 0, con.connId, 0, 0, [])), FinSent, slot, states, run, gap, f, k)
  {
    GivesUp(states, run, slot, gap, f, k);
  }

  /** The SYN|ACK that a SYN is answered with: a known slot keeps its identifier and counters, a new one gets them. */
  function Invitation(c: Ctx, p: Packet, from: Addr, slot: nat): Packet
    requires slot < |c.conns|
  {
    if FindByAddr(c.conns, from).Some? then HandshakePacket(c.conns[slot], SYN_ACK)
    else Packet(SYN_ACK, 0, GenerateClientId(c.clientId, c.clientGen).0, c.iss, p.seqNo, [])
  }

  /**
   A SYN for a slot that is not established, known or new and however many attempts it has behind it, makes it
   send SYN|ACK to the SYN's address, five times if that is never answered.
   */
  lemma AcceptGivesUp(n: Node, p: Packet, from: Addr, sendOk: bool, slot: nat, now: nat,
                      states: seq<Watched>, run: seq<Doing>, gap: nat, f: nat, k: nat)
    requires IsRun(Silence(slot, gap), states, run) && TicksFirstAt(run, f) && f < k < |states|
    requires After(n, Recv(p, from, sendOk), now, states[0])
    requires IsSyn(p) && Hosting(n.ctx, from) == Some(slot) && !n.ctx.conns[slot].state.Established?
    ensures GaveUp(Datagram(from, Invitation(n.ctx, p, from, slot)), SynRcvd, slot, states, run, gap, f, k)
  {
    GivesUp(states, run, slot, gap, f, k);
  }

  // ---------- Keepalive ----------

  function Pings(sent: seq<Datagram>): nat {
    if sent == [] then 0 else (if sent[0].packet.ctrl == PING then 1 else 0) + Pings(sent[1..])
  }

  lemma {:induction false} PingsAppend(a: seq<Datagram>, b: seq<Datagram>)
    ensures Pings(a + b) == Pings(a) + Pings(b)
    decreases |a|
  {
    if a == [] {
      assert a + b == b;
    } else {
      assert (a + b)[1..] == a[1..] + b;
      PingsAppend(a[1..], b);
    }
  }

  /** Send queues hold nothing but DATA. */
  ghost predicate QueuesHoldData(con: Conn) {
    con.channels.Some? ==> forall i :: 0 <= i < |con.channels.value| ==> QueueHoldsData(con.channels.value[i].sendQueue)
  }

  ghost predicate QueueHoldsData(queue: seq<Entry>) {
    forall j :: 0 <= j < |queue| ==> queue[j].packet.ctrl == DATA
  }

  /** In every run of a context, the queues of every established slot do. */
  lemma RunQueuesHoldData(states: seq<Node>, run: seq<Timed>, slots: nat, iss: U32, server: Addr, n: nat, i: nat)
    requires IsRun(AnyStep, states, run) && n < |states|
    requires var c := states[0].ctx; c == Created(slots, c.reliable, c.eventCapacity, iss, server)
    requires CtxOk(states[n].ctx) && i < |states[n].ctx.conns| && states[n].ctx.conns[i].state.Established?
    ensures QueuesHoldData(states[n].ctx.conns[i])
  {
    assert Preserves(AnyStep, (m: Node) => Tagged(m.ctx)) by {
      forall m: Node, t: Timed, m': Node | AnyStep(m, t, m') && Tagged(m.ctx) ensures Tagged(m'.ctx) {
        ActTagged(m, t.action, t.now);
      }
    }
    InvariantHolds(AnyStep, (m: Node) => Tagged(m.ctx), states, run, n);
    var c := states[n].ctx;
    assert ConnOk(c.conns[i], c.reliable);
    forall k | 0 <= k < |c.reliable| ensures QueueHoldsData(c.conns[i].channels.value[k].sendQueue) {
      assert QueueTagged(ChanAt(c, i, k).sendQueue, k);
    }
  }

  lemma HeadHoldsData(chan: Chan, peer: Addr, now: nat)
    requires QueueHoldsData(chan.sendQueue)
    ensures QueueHoldsData(TransmitHead(chan, peer, now).chan.sendQueue)
    ensures Pings(TransmitHead(chan, peer, now).sent) == 0
  {
  }

  /** An effect that keeps the state and the keepalive timer and sends no PING. */
  ghost predicate KeepsQuiet(con: Conn, after: Conn, sent: seq<Datagram>) {
    && Pings(sent) == 0 && QueuesHoldData(after) && after.state == con.state
    && after.keepalive == con.keepalive && after.keepaliveRetry == con.keepaliveRetry
  }

  /** The connection after its channel `ch` was served. */
  function Served(con: Conn, ch: nat, now: nat): Conn
    requires con.channels.Some? && ch < |con.channels.value|
  {
    var t := TransmitHead(con.channels.value[ch], con.peer, now);
    SetChannel(con, ch, t.chan).(lossCount := con.lossCount + t.losses)
  }

  lemma TransmitFromNext(con: Conn, ch: nat, now: nat)
    requires con.channels.Some? && ch < |con.channels.value|
    ensures var e, rest := TransmitFrom(con, ch, now), TransmitFrom(Served(con, ch, now), ch + 1, now);
            e.con == rest.con && e.sent == TransmitHead(con.channels.value[ch], con.peer, now).sent + rest.sent
  {
  }

  lemma ServedKeepsQuiet(con: Conn, ch: nat, now: nat)
    requires con.channels.Some? && ch < |con.channels.value| && QueuesHoldData(con)
    ensures KeepsQuiet(con, Served(con, ch, now), TransmitHead(con.channels.value[ch], con.peer, now).sent)
  {
    HeadHoldsData(con.channels.value[ch], con.peer, now);
  }

  lemma QuietThenQuiet(con: Conn, a: Conn, sent: seq<Datagram>, b: Conn, more: seq<Datagram>)
    requires KeepsQuiet(con, a, sent) && KeepsQuiet(a, b, more)
    ensures KeepsQuiet(con, b, sent + more)
  {
    PingsAppend(sent, more);
  }

  /** Transmission neither sends a PING nor touches the keepalive timer. */
  lemma {:induction false} TransmittingIsNotPinging(con: Conn, ch: nat, now: nat)
    requires con.channels.Some? && ch <= |con.channels.value| && QueuesHoldData(con)
    ensures KeepsQuiet(con, TransmitFrom(con, ch, now).con, TransmitFrom(con, ch, now).sent)
    decreases |con.channels.value| - ch
  {
    if ch < |con.channels.value| {
      var next, sent := Served(con, ch, now), TransmitHead(con.channels.value[ch], con.peer, now).sent;
      ServedKeepsQuiet(con, ch, now);
      TransmittingIsNotPinging(next, ch + 1, now);
      var rest := TransmitFrom(next, ch + 1, now);
      QuietThenQuiet(con, next, sent, rest.con, rest.sent);
      TransmitFromNext(con, ch, now);
    }
  }

  lemma AliveTick(con: Conn, now: nat, reliable: seq<bool>)
    requires con.state.Established? && ConnOk(con, reliable) && QueuesHoldData(con)
    ensures var e := TimerEffect(con, now, reliable);
            && QueuesHoldData(e.con)
            && if !Expired(con.keepalive, now) then
                 e.con.state == con.state && e.con.keepalive == con.keepalive
                 && e.con.keepaliveRetry == con.keepaliveRetry && Pings(e.sent) == 0
               else if con.keepaliveRetry > KEEPALIVE_RETRY then e.con.state.Closed? && Pings(e.sent) == 0
               else e.con.state == con.state && Pings(e.sent) == 1
                    && e.con.keepalive == now + KEEPALIVE_TIME * (con.keepaliveRetry + 1)
                    && e.con.keepaliveRetry == con.keepaliveRetry + 1
  {
    TransmittingIsNotPinging(con, 0, now);
    var transmitted := TransmitFrom(con, 0, now);
    var alive := KeepaliveEffect(transmitted.con, now, reliable);
    PingsAppend(transmitted.sent, alive.sent);
    assert alive.sent == [] || Pings(alive.sent) == Pings(alive.sent[1..]) + 1;
  }

  /** The waits before the first PING and after each of `r` of them. */
  function PingWaits(r: nat): nat {
    if r == 0 then KEEPALIVE_TIME else PingWaits(r - 1) + KEEPALIVE_TIME * r
  }

  predicate OnlyStalls(notes: seq<Note>) {
    forall i :: 0 <= i < |notes| ==> notes[i].Stalled?
  }

  /** Nothing but stalls, and the timeout at the end if there has been one. */
  predicate StallsThen(notes: seq<Note>, timedOut: bool) {
    if timedOut then notes != [] && notes[|notes| - 1] == Disconnected(Timeout) && OnlyStalls(notes[..|notes| - 1])
    else OnlyStalls(notes)
  }

  lemma SilenceTold(notes: seq<Note>, now: nat, before: Conn, after: Conn)
    requires before.state.Established? && before.channels.Some? && OnlyStalls(notes)
    ensures StallsThen(notes + ToldOfTimers(now, before, after), after.state.Closed?)
  {
    StallsAreStalls(before.channels.value, now);
  }

  lemma {:induction false} StallsAreStalls(chans: seq<Chan>, now: nat)
    ensures OnlyStalls(Stalls(chans, now))
    decreases |chans|
  {
    if chans != [] {
      StallsAreStalls(chans[1..], now);
    }
  }

  /** Every PING goes to the peer, under the connection's identifier. */
  predicate PingsName(sent: seq<Datagram>, peer: Addr, id: ConnId) {
    forall i :: 0 <= i < |sent| && sent[i].packet.ctrl == PING ==> sent[i].to == peer && sent[i].packet.connId == id
  }

  lemma {:induction false} NoPingsName(sent: seq<Datagram>, peer: Addr, id: ConnId)
    requires Pings(sent) == 0
    ensures PingsName(sent, peer, id)
    decreases |sent|
  {
    if sent != [] {
      NoPingsName(sent[1..], peer, id);
      assert forall i :: 1 <= i < |sent| ==> sent[i] == sent[1..][i - 1];
    }
  }

  lemma NamesAppend(a: seq<Datagram>, b: seq<Datagram>, peer: Addr, id: ConnId)
    requires PingsName(a, peer, id) && PingsName(b, peer, id)
    ensures PingsName(a + b, peer, id)
  {
  }

  lemma AliveNames(con: Conn, now: nat, reliable: seq<bool>)
    requires con.state.Established? && ConnOk(con, reliable) && QueuesHoldData(con)
    ensures var e := TimerEffect(con, now, reliable);
            PingsName(e.sent, con.peer, con.connId) && e.con.peer == con.peer && e.con.connId == con.connId
  {
    TransmittingIsNotPinging(con, 0, now);
    NoPingsName(TransmitFrom(con, 0, now).sent, con.peer, con.connId);
    TransmitKeepsTimer(con, 0, now);
  }

  /** A keepalive timer started afresh at `start`, of a connection with this peer and identifier. */
  ghost predicate AliveInv(start: int, gap: nat, peer: Addr, id: ConnId, w: Watch) {
    AliveCounts(start, gap, w) && AliveSays(peer, id, w)
  }

  ghost predicate AliveCounts(start: int, gap: nat, w: Watch) {
    if w.con.state.Closed? then
      Pings(w.sent) == KEEPALIVE_RETRY + 1 && w.last >= start + PingWaits(KEEPALIVE_RETRY + 1)
    else
      && w.con.state.Established? && QueuesHoldData(w.con)
      && w.con.keepaliveRetry <= KEEPALIVE_RETRY + 1 && Pings(w.sent) == w.con.keepaliveRetry
      && start + PingWaits(w.con.keepaliveRetry) <= w.con.keepalive
      && w.con.keepalive <= start + PingWaits(w.con.keepaliveRetry) + Slack(w.con.keepaliveRetry, gap)
      && start <= w.last < w.con.keepalive
  }

  ghost predicate AliveSays(peer: Addr, id: ConnId, w: Watch) {
    && PingsName(w.sent, peer, id) && StallsThen(w.notes, w.con.state.Closed?)
    && (!w.con.state.Closed? ==> w.con.peer == peer && w.con.connId == id)
  }

  ghost predicate ClosesOnTime(start: int, gap: nat, w: Watch, now: nat, w': Watch) {
    !w.con.state.Closed? && w'.con.state.Closed? ==>
      start + PingWaits(KEEPALIVE_RETRY + 1) <= now
      <= start + PingWaits(KEEPALIVE_RETRY + 1) + Slack(KEEPALIVE_RETRY + 2, gap)
  }

  lemma AliveCountsStep(start: int, gap: nat, reliable: seq<bool>, w: Watch, now: nat, w': Watch)
    requires TickStep(reliable, gap, w, now, w') && AliveCounts(start, gap, w)
    ensures AliveCounts(start, gap, w') && ClosesOnTime(start, gap, w, now, w')
  {
    if w.con.state.Established? {
      AliveTick(w.con, now, reliable);
      PingsAppend(w.sent, TimerEffect(w.con, now, reliable).sent);
    } else {
      assert w'.sent == w.sent;
    }
  }

  lemma AliveSaysStep(gap: nat, peer: Addr, id: ConnId, reliable: seq<bool>, w: Watch, now: nat, w': Watch)
    requires TickStep(reliable, gap, w, now, w') && AliveSays(peer, id, w)
    requires w.con.state.Closed? || (w.con.state.Established? && QueuesHoldData(w.con))
    ensures AliveSays(peer, id, w')
  {
    if w.con.state.Established? {
      AliveNames(w.con, now, reliable);
      SilenceTold(w.notes, now, w.con, w'.con);
      NamesAppend(w.sent, TimerEffect(w.con, now, reliable).sent, peer, id);
    } else {
      assert w'.sent == w.sent && w'.notes == w.notes;
    }
  }

  lemma AliveStep(start: int, gap: nat, peer: Addr, id: ConnId, reliable: seq<bool>, w: Watch, now: nat, w': Watch)
    requires TickStep(reliable, gap, w, now, w') && AliveInv(start, gap, peer, id, w)
    ensures AliveInv(start, gap, peer, id, w') && ClosesOnTime(start, gap, w, now, w')
  {
    AliveCountsStep(start, gap, reliable, w, now, w');
    AliveSaysStep(gap, peer, id, reliable, w, now, w');
  }

  lemma SilentAlive(start: int, slot: nat, gap: nat, peer: Addr, id: ConnId, w: Watched, d: Doing, w': Watched)
    requires SilentStep(slot, gap, w, d, w') && AliveInv(start, gap, peer, id, Seen(w, slot))
    ensures slot < |w'.node.ctx.conns| && AliveInv(start, gap, peer, id, Seen(w', slot))
    ensures d.TickAt? ==> ClosesOnTime(start, gap, Seen(w, slot), d.now, Seen(w', slot))
    ensures d.CallAt? ==> Seen(w', slot).con.state == Seen(w, slot).con.state
  {
    StepSeen(slot, gap, w, d, w');
    if d.TickAt? {
      AliveStep(start, gap, peer, id, w.node.ctx.reliable, Seen(w, slot), d.now, Seen(w', slot));
    }
  }

  lemma {:induction false} AliveHolds(states: seq<Watched>, run: seq<Doing>, slot: nat, gap: nat,
                                      start: int, peer: Addr, id: ConnId, k: nat)
    requires IsRun(Silence(slot, gap), states, run) && k < |states| && slot < |states[0].node.ctx.conns|
    requires AliveInv(start, gap, peer, id, Seen(states[0], slot))
    ensures slot < |states[k].node.ctx.conns| && AliveInv(start, gap, peer, id, Seen(states[k], slot))
    decreases k
  {
    if k > 0 {
      AliveHolds(states, run, slot, gap, start, peer, id, k - 1);
      assert Silence(slot, gap)(states[k - 1], run[k - 1], states[k]);
      SilentAlive(start, slot, gap, peer, id, states[k - 1], run[k - 1], states[k]);
    }
  }

  lemma NineWaits(gap: nat)
    ensures PingWaits(KEEPALIVE_RETRY + 1) == 9200
    ensures Slack(KEEPALIVE_RETRY + 2, gap) == 10 * gap
  {
    assert PingWaits(1) == 400;
    assert PingWaits(2) == 800;
    assert PingWaits(3) == 1400;
    assert PingWaits(4) == 2200;
    assert PingWaits(5) == 3200;
    assert PingWaits(6) == 4400;
    assert PingWaits(7) == 5800;
    assert PingWaits(8) == 7400;
    SlackIs(10, gap);
  }

  lemma {:induction false} SlackIs(r: nat, gap: nat)
    ensures Slack(r, gap) == r * gap
    decreases r
  {
    if r > 0 {
      SlackIs(r - 1, gap);
    }
  }

  lemma {:induction false} PingWaitsUpTo(r: nat, gap: nat)
    ensures r <= KEEPALIVE_RETRY + 1 ==> PingWaits(r) <= PingWaits(KEEPALIVE_RETRY + 1)
    ensures r <= KEEPALIVE_RETRY + 1 ==> Slack(r, gap) + gap <= Slack(KEEPALIVE_RETRY + 2, gap)
    decreases KEEPALIVE_RETRY + 1 - r
  {
    if r < KEEPALIVE_RETRY + 1 {
      PingWaitsUpTo(r + 1, gap);
    }
  }

  ghost predicate PingedSoFar(start: int, gap: nat, peer: Addr, id: ConnId, w: Watch) {
    && Pings(w.sent) <= 9 && PingsName(w.sent, peer, id)
    && (w.con.state.Closed? ==> Pings(w.sent) == 9)
    && StallsThen(w.notes, w.con.state.Closed?)
    && (w.last < start + 9200 ==> w.con.state.Established?)
    && (w.last >= start + 9200 + 10 * gap ==> w.con.state.Closed?)
  }

  lemma AliveMeans(start: int, gap: nat, peer: Addr, id: ConnId, w: Watch)
    requires AliveInv(start, gap, peer, id, w)
    ensures PingedSoFar(start, gap, peer, id, w)
  {
    NineWaits(gap);
    PingWaitsUpTo(w.con.keepaliveRetry, gap);
  }

  lemma AliveCloses(states: seq<Watched>, run: seq<Doing>, slot: nat, gap: nat, start: int, peer: Addr, id: ConnId, k: nat)
    requires IsRun(Silence(slot, gap), states, run) && 1 <= k < |states| && slot < |states[0].node.ctx.conns|
    requires AliveInv(start, gap, peer, id, Seen(states[0], slot))
    ensures ClosesBetween(slot, states[k - 1], run[k - 1], states[k], start + 9200, start + 9200 + 10 * gap)
  {
    AliveHolds(states, run, slot, gap, start, peer, id, k - 1);
    NineWaits(gap);
    assert Silence(slot, gap)(states[k - 1], run[k - 1], states[k]);
    SilentAlive(start, slot, gap, peer, id, states[k - 1], run[k - 1], states[k]);
  }

  /**
   An established connection that hears nothing sends exactly nine PINGs and closes between 9200 ms and
   9200 ms + 10 gaps after its keepalive timer was started, whatever is queued on it and sent meanwhile; its owner
   is told of the timeout once, and before that of nothing but stalls.
   */
  lemma SilenceCloses(states: seq<Watched>, run: seq<Doing>, slot: nat, gap: nat, k: nat)
    requires IsRun(Silence(slot, gap), states, run) && 1 <= k < |states| && slot < |states[0].node.ctx.conns|
    requires states[0].sent == [] && states[0].notes == []
    requires var con := Seen(states[0], slot).con;
             && con.state.Established? && QueuesHoldData(con)
             && con.keepaliveRetry == 0 && con.keepalive == states[0].last + KEEPALIVE_TIME
    ensures FellSilent(slot, states, run, gap, k)
  {
    var con := Seen(states[0], slot).con;
    AliveHolds(states, run, slot, gap, states[0].last, con.peer, con.connId, k);
    AliveMeans(states[0].last, gap, con.peer, con.connId, Seen(states[k], slot));
    AliveCloses(states, run, slot, gap, states[0].last, con.peer, con.connId, k);
  }

  ghost predicate FellSilent(slot: nat, states: seq<Watched>, run: seq<Doing>, gap: nat, k: nat)
    requires 1 <= k < |states| == |run| + 1 && slot < |states[0].node.ctx.conns|
  {
    && slot < |states[k].node.ctx.conns|
    && PingedSoFar(states[0].last, gap, Seen(states[0], slot).con.peer, Seen(states[0], slot).con.connId,
                   Seen(states[k], slot))
    && ClosesBetween(slot, states[k - 1], run[k - 1], states[k], states[0].last + 9200, states[0].last + 9200 + 10 * gap)
  }

  /** From the packet that establishes it, whichever end it is. */
  lemma SilenceAfterOpening(n: Node, a: Action, now: nat, slot: nat, states: seq<Watched>, run: seq<Doing>, gap: nat, k: nat)
    requires IsRun(Silence(slot, gap), states, run) && 1 <= k < |states|
    requires After(n, a, now, states[0]) && slot < |n.ctx.conns| && slot < |states[0].node.ctx.conns|
    requires !n.ctx.conns[slot].state.Established? && states[0].node.ctx.conns[slot].state.Established?
    ensures FellSilent(slot, states, run, gap, k)
  {
    StateDiagram(n, a, now, slot);
    assert Finds(n.ctx, a.packet, slot);
    SilenceCloses(states, run, slot, gap, k);
  }

  /** From the last PONG, however many PINGs had been sent before it. */
  lemma SilenceAfterPong(n: Node, p: Packet, from: Addr, sendOk: bool, now: nat, slot: nat,
                         states: seq<Watched>, run: seq<Doing>, gap: nat, k: nat)
    requires IsRun(Silence(slot, gap), states, run) && 1 <= k < |states|
    requires After(n, Recv(p, from, sendOk), now, states[0]) && slot < |n.ctx.conns|
    requires p.ctrl == PONG && FindById(n.ctx.conns, p.connId) == Some(slot)
    requires n.ctx.conns[slot].state.Established? && QueuesHoldData(n.ctx.conns[slot])
    ensures FellSilent(slot, states, run, gap, k)
  {
    SilenceCloses(states, run, slot, gap, k);
  }
}
