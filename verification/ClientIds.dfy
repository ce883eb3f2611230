/**
 The identifiers a server hands out: their exact sequence and period, and that looking a live connection
 up by its identifier finds it for as long as fewer than 65535 have been handed out.
 */
module ClientIds {
  import opened Wrappers
  import opened Protocol
  import opened Endpoint
  import opened Node
  import opened Runs
  import Session

  const PERIOD: nat := 65535

  // ---------- The sequence ----------

  /** The counter after `n` identifiers, from a context as it is created. */
  function Counter(n: nat): U16 {
    if n == 0 then 1 else GenerateClientId(Counter(n - 1), 0).1
  }

  /** The `n`-th identifier handed out, from 1. */
  function Nth(n: nat): ConnId
    requires n >= 1
  {
    GenerateClientId(Counter(n - 1), 0).0
  }

  lemma NextRemainder(n: nat)
    ensures (n + 1) % PERIOD == if n % PERIOD == PERIOD - 1 then 0 else n % PERIOD + 1
  {
  }

  lemma {:induction false} CounterClosedForm(n: nat)
    ensures Counter(n) == (n + 1) % PERIOD
  {
    if n > 0 {
      CounterClosedForm(n - 1);
      NextRemainder(n);
      CounterStep(Counter(n - 1));
    }
  }

  lemma CounterStep(id: U16)
    requires id < PERIOD
    ensures GenerateClientId(id, 0).1 == if id == PERIOD - 1 then 0 else id + 1
  {
  }

  /** The reserved identifier is never handed out; the one before it carries generation 1. */
  lemma NthClosedForm(n: nat)
    requires n >= 1
    ensures Nth(n) == ConnId(if n % PERIOD == 0xFFFE then 1 else 0, n % PERIOD)
    ensures Nth(n).id != 0xFFFF
  {
    CounterClosedForm(n - 1);
  }

  /** Exact period: any 65535 consecutive identifiers are distinct, and the next one starts again. */
  lemma SameIdIff(i: nat, j: nat)
    requires i >= 1 && j >= 1
    ensures Nth(i) == Nth(j) <==> i % PERIOD == j % PERIOD
  {
    NthClosedForm(i);
    NthClosedForm(j);
  }

  lemma RemainderShifts(q: int, r: nat)
    requires r < PERIOD
    ensures (q * PERIOD + r) % PERIOD == r
  {
  }

  lemma RemaindersApart(i: nat, d: nat)
    requires 1 <= d <= PERIOD
    ensures (i + d) % PERIOD == i % PERIOD <==> d == PERIOD
  {
    var q, r := i / PERIOD, i % PERIOD;
    assert i == q * PERIOD + r;
    RemainderShifts(q, r);
    if r + d < PERIOD {
      assert i + d == q * PERIOD + (r + d);
      RemainderShifts(q, r + d);
    } else {
      assert i + d == (q + 1) * PERIOD + (r + d - PERIOD);
      RemainderShifts(q + 1, r + d - PERIOD);
    }
  }

  lemma DistinctWithinPeriod(i: nat, j: nat)
    requires 1 <= i < j < i + PERIOD
    ensures Nth(i) != Nth(j) && Nth(i + PERIOD) == Nth(i)
  {
    RemaindersApart(i, j - i);
    RemaindersApart(i, PERIOD);
    SameIdIff(i, j);
    SameIdIff(i, i + PERIOD);
  }

  // ---------- Identifiers of live connections ----------

  /** An identifier handed out among the first `n`. */
  ghost predicate HandedOut(id: ConnId, n: nat) {
    exists m :: 1 <= m <= n && id == Nth(m)
  }

  /** Every slot has an identifier of its own, or none yet. */
  ghost predicate Numbered(c: Ctx, n: nat) {
    && c.clientGen == 0 && c.clientId == Counter(n)
    && (forall i :: 0 <= i < |c.conns| ==> SlotNumbered(c.conns[i], i, n))
    && (forall i, j :: 0 <= i < j < |c.conns| && c.conns[i].connId == c.conns[j].connId ==> c.conns[i].connId == ConnId(0, 0))
  }

  /** A slot without an identifier has never been used, or is slot 0, which any SYN|ACK establishes as it is. */
  ghost predicate SlotNumbered(con: Conn, i: nat, n: nat) {
    && !con.state.SynSent?
    && (HandedOut(con.connId, n)
        || (con.connId == ConnId(0, 0) && (i == 0 || (con.state.Closed? && con.peer == NO_ADDR))))
  }

  lemma NewIdIsNew(n: nat, m: nat)
    requires 1 <= m <= n < PERIOD - 1
    ensures Nth(n + 1) != Nth(m) && Nth(n + 1) != ConnId(0, 0)
  {
    SameIdIff(n + 1, m);
    NthClosedForm(n + 1);
    SmallRemainder(n + 1);
    SmallRemainder(m);
  }

  lemma SmallRemainder(x: nat)
    requires x < PERIOD
    ensures x % PERIOD == x
  {
  }

  /** What a packet or a timer may do to a connection without renaming it. */
  ghost predicate KeepsName(con: Conn, after: Conn, i: nat) {
    && after.connId == con.connId && !after.state.SynSent?
    && (i > 0 && con.state.Closed? && con.peer == NO_ADDR ==> after.state.Closed? && after.peer == NO_ADDR)
  }

  lemma KeptNamesStayNumbered(c: Ctx, c': Ctx, n: nat)
    requires Numbered(c, n) && c'.clientId == c.clientId && c'.clientGen == c.clientGen && |c'.conns| == |c.conns|
    requires forall i :: 0 <= i < |c.conns| ==> KeepsName(c.conns[i], c'.conns[i], i)
    ensures Numbered(c', n)
  {
  }

  /** A new connection takes a closed slot and a new identifier. */
  lemma NewNameStaysNumbered(c: Ctx, c': Ctx, n: nat, slot: nat)
    requires Numbered(c, n) && n < PERIOD - 1 && slot < |c.conns|
    requires c'.clientId == Counter(n + 1) && c'.clientGen == 0
    requires |c'.conns| == |c.conns| && c'.conns == c.conns[slot := c'.conns[slot]]
    requires c'.conns[slot].connId == Nth(n + 1) && !c'.conns[slot].state.SynSent?
    ensures Numbered(c', n + 1)
  {
    forall i | 0 <= i < |c.conns| && i != slot
      ensures SlotNumbered(c'.conns[i], i, n + 1) && c'.conns[i].connId != c'.conns[slot].connId
    {
      assert SlotNumbered(c.conns[i], i, n);
      NewIdDiffers(c.conns[i].connId, n);
    }
    assert HandedOut(c'.conns[slot].connId, n + 1);
  }

  lemma NewIdDiffers(id: ConnId, n: nat)
    requires n < PERIOD - 1 && (HandedOut(id, n) || id == ConnId(0, 0))
    ensures id != Nth(n + 1)
  {
    if HandedOut(id, n) {
      var m :| 1 <= m <= n && id == Nth(m);
      NewIdIsNew(n, m);
    } else {
      NthClosedForm(n + 1);
      SmallRemainder(n + 1);
    }
  }

  // ---------- Every action of a server ----------

  lemma SynNumbers(c: Ctx, p: Packet, from: Addr, now: nat, n: nat)
    requires Numbered(c, n) && from != NO_ADDR
    requires OnSyn(c, p, from, now).ctx.clientId != c.clientId ==> n < PERIOD - 1
    ensures var c' := OnSyn(c, p, from, now).ctx;
            Numbered(c', if c'.clientId == c.clientId then n else n + 1)
  {
    var c' := OnSyn(c, p, from, now).ctx;
    var (placed, slot) := AssignSlot(c, p, from);
    if slot.Some? {
      if FindByAddr(c.conns, from).Some? {
        forall i | 0 <= i < |c.conns| ensures KeepsName(c.conns[i], c'.conns[i], i) {
        }
        KeptNamesStayNumbered(c, c', n);
      } else {
        assert placed.conns == c.conns[slot.value := placed.conns[slot.value]];
        assert c'.conns == c.conns[slot.value := c'.conns[slot.value]];
        CounterMoves(n);
        NewNameStaysNumbered(c, c', n, slot.value);
      }
    }
  }

  lemma CounterMoves(n: nat)
    ensures GenerateClientId(Counter(n), 0) == (Nth(n + 1), Counter(n + 1))
    ensures Counter(n + 1) != Counter(n)
  {
    CounterClosedForm(n);
    CounterStep(Counter(n));
  }

  lemma AddressedKeepsName(con: Conn, p: Packet, from: Addr, now: nat, sendOk: bool, reliable: seq<bool>,
                           i: nat)
    requires ConnOk(con, reliable) && IsAddressed(p) && !con.state.SynSent?
    ensures KeepsName(con, AddressedEffect(con, p, from, now, sendOk, reliable).con, i)
  {
  }

  /** Only a slot that asked for a connection takes the identifier a SYN|ACK carries. */
  lemma SynAckNumbers(c: Ctx, p: Packet, now: nat, sendOk: bool, n: nat)
    requires CtxOk(c) && Numbered(c, n)
    ensures Numbered(Install(c, 0, SynAckEffect(c.conns[0], p, now, sendOk, c.reliable)).ctx, n)
  {
    var c' := Install(c, 0, SynAckEffect(c.conns[0], p, now, sendOk, c.reliable)).ctx;
    forall i | 0 <= i < |c.conns| ensures KeepsName(c.conns[i], c'.conns[i], i) {
      assert SlotNumbered(c.conns[i], i, n);
    }
    KeptNamesStayNumbered(c, c', n);
  }

  /** Any packet. */
  lemma ReceiveNumbers(c: Ctx, p: Packet, from: Addr, now: nat, sendOk: bool, n: nat)
    requires CtxOk(c) && Numbered(c, n) && from != NO_ADDR
    requires Receive(c, p, from, now, sendOk).ctx.clientId != c.clientId ==> n < PERIOD - 1
    ensures var c' := Receive(c, p, from, now, sendOk).ctx;
            Numbered(c', if c'.clientId == c.clientId then n else n + 1)
  {
    if p.ctrl == SYN && p.connId.id == 0xFFFF {
      SynNumbers(c, p, from, now, n);
    } else if p.ctrl == SYN_ACK {
      SynAckNumbers(c, p, now, sendOk, n);
    } else if p.ctrl != PING && IsAddressed(p) {
      var c' := OnAddressed(c, p, from, now, sendOk).ctx;
      var slot := FindById(c.conns, p.connId);
      if slot.Some? {
        forall i | 0 <= i < |c.conns| ensures KeepsName(c.conns[i], c'.conns[i], i) {
          assert SlotNumbered(c.conns[i], i, n);
          if i == slot.value {
            AddressedKeepsName(c.conns[i], p, from, now, sendOk, c.reliable, i);
          }
        }
        KeptNamesStayNumbered(c, c', n);
      }
    }
  }

  lemma TimersNumber(c: Ctx, now: nat, n: nat)
    requires CtxOk(c) && Numbered(c, n)
    ensures Numbered(TimersFrom(c, 0, now).ctx, n)
  {
    var c' := TimersFrom(c, 0, now).ctx;
    TimersKeepCounter(c, 0, now);
    TimersFromOk(c, 0, now);
    forall i | 0 <= i < |c.conns| ensures KeepsName(c.conns[i], c'.conns[i], i) {
      assert SlotNumbered(c.conns[i], i, n);
      TimersFromConn(c, 0, now, i);
      Session.TimerEffectKeeps(c.conns[i], now, c.reliable);
    }
    KeptNamesStayNumbered(c, c', n);
  }

  lemma {:induction false} TimersKeepCounter(c: Ctx, slot: nat, now: nat)
    requires CtxOk(c) && slot <= |c.conns|
    ensures TimersFrom(c, slot, now).ctx.clientId == c.clientId && TimersFrom(c, slot, now).ctx.clientGen == c.clientGen
    decreases |c.conns| - slot
  {
    if slot < |c.conns| {
      TimerOutcomeOk(c, slot, now);
      TimersKeepCounter(TimerOutcome(c, slot, now).ctx, slot + 1, now);
    }
  }

  /** What a server is asked to do: it never connects. */
  predicate ServerAction(n: Node, a: Action) {
    ActionOk(n, a) && !a.ConnectTo? && (a.Recv? ==> a.from != NO_ADDR)
  }

  lemma ActNumbers(node: Node, a: Action, now: nat, n: nat)
    requires CtxOk(node.ctx) && ServerAction(node, a) && Numbered(node.ctx, n)
    requires Act(node, a, now).0.ctx.clientId != node.ctx.clientId ==> n < PERIOD - 1
    ensures var c' := Act(node, a, now).0.ctx;
            Numbered(c', if c'.clientId == node.ctx.clientId then n else n + 1)
  {
    match a
    case Recv(p, from, sendOk) => ReceiveNumbers(node.ctx, p, from, now, sendOk, n);
    case Timers => TimersNumber(node.ctx, now, n);
    case ConnectTo(_) =>
    case _ => CallNumbers(node, a, now, n);
  }

  lemma CallNumbers(node: Node, a: Action, now: nat, n: nat)
    requires CtxOk(node.ctx) && ActionOk(node, a) && !a.Recv? && !a.Timers? && !a.ConnectTo? && Numbered(node.ctx, n)
    ensures Act(node, a, now).0.ctx.clientId == node.ctx.clientId
    ensures Numbered(Act(node, a, now).0.ctx, n)
  {
    var c' := Act(node, a, now).0.ctx;
    forall i | 0 <= i < |node.ctx.conns| ensures KeepsName(node.ctx.conns[i], c'.conns[i], i) {
      assert SlotNumbered(node.ctx.conns[i], i, n);
    }
    KeptNamesStayNumbered(node.ctx, c', n);
  }

  // ---------- Runs of a server ----------

  /** A server, and how many identifiers it has handed out. */
  datatype Server = Server(node: Node, handed: nat)

  ghost predicate ServerStep(s: Server, t: Timed, s': Server) {
    && CtxOk(s.node.ctx) && ServerAction(s.node, t.action)
    && s'.node == Act(s.node, t.action, t.now).0
    && s'.handed == s.handed + if s'.node.ctx.clientId == s.node.ctx.clientId then 0 else 1
  }

  ghost predicate NumberedSoFar(s: Server) {
    s.handed < PERIOD ==> Numbered(s.node.ctx, s.handed)
  }

  lemma ServerStepNumbers(s: Server, t: Timed, s': Server)
    requires ServerStep(s, t, s') && NumberedSoFar(s)
    ensures NumberedSoFar(s')
  {
    if s'.handed < PERIOD {
      ActNumbers(s.node, t.action, t.now, s.handed);
    }
  }

  /**
   In every run of a server that hands out fewer than 65535 identifiers, each connection that is not
   closed is the one its identifier finds.
   */
  lemma LiveConnectionIsFound(states: seq<Server>, run: seq<Timed>, slots: nat, iss: U32, server: Addr, k: nat, i: nat)
    requires IsRun(ServerStep, states, run) && k < |states|
    requires states[0].handed == 0
    requires var c := states[0].node.ctx; c == Created(slots, c.reliable, c.eventCapacity, iss, server)
    requires states[k].handed < PERIOD
    requires var c := states[k].node.ctx; i < |c.conns| && !c.conns[i].state.Closed?
    ensures var c := states[k].node.ctx; FindById(c.conns, c.conns[i].connId) == Some(i)
  {
    assert Numbered(states[0].node.ctx, states[0].handed);
    assert Preserves(ServerStep, NumberedSoFar) by {
      forall s, t, s' | ServerStep(s, t, s') && NumberedSoFar(s) ensures NumberedSoFar(s') {
        ServerStepNumbers(s, t, s');
      }
    }
    InvariantHolds(ServerStep, NumberedSoFar, states, run, k);
    NumberedIsFound(states[k].node.ctx, states[k].handed, i);
  }

  lemma NumberedIsFound(c: Ctx, n: nat, i: nat)
    requires Numbered(c, n) && n < PERIOD && i < |c.conns| && !c.conns[i].state.Closed?
    ensures FindById(c.conns, c.conns[i].connId) == Some(i)
  {
    assert SlotNumbered(c.conns[i], i, n);
    if HandedOut(c.conns[i].connId, n) {
      HandedOutIsNotZero(c.conns[i].connId, n);
    }
  }

  lemma HandedOutIsNotZero(id: ConnId, n: nat)
    requires HandedOut(id, n) && n < PERIOD
    ensures id != ConnId(0, 0)
  {
    var m :| 1 <= m <= n && id == Nth(m);
    NthClosedForm(m);
    SmallRemainder(m);
  }
}
