/** How a connection changes its state, in every action of any context: each change and its one cause. */
module Lifecycle {
  import opened Wrappers
  import opened Protocol
  import opened Endpoint
  import opened Node

  // ---------- The slot a packet is for ----------

  /** The packet looks its connection up by identifier and finds slot `i`, or is a SYN|ACK, which is for slot 0. */
  predicate Finds(c: Ctx, p: Packet, i: nat) {
    if p.ctrl == SYN_ACK then i == 0 else IsAddressed(p) && FindById(c.conns, p.connId) == Some(i)
  }

  /** The slot a SYN is for: the one at its address, or else the first closed one. */
  function Hosting(c: Ctx, from: Addr): Option<nat> {
    var known := FindByAddr(c.conns, from);
    if known.Some? then known else FindClosed(c.conns)
  }

  predicate IsSyn(p: Packet) {
    p.ctrl == SYN && p.connId.id == 0xFFFF
  }

  // ---------- The state diagram ----------

  /** The timers end the connection: five attempts or nine PINGs have gone unanswered. */
  predicate RunsOut(con: Conn, now: nat) {
    match con.state
    case Closed => false
    case Established => Expired(con.keepalive, now) && con.keepaliveRetry >= 9
    case _ => Expired(con.time, now) && con.retry >= 5
  }

  /** The packet ends a connection it finds. */
  predicate Ends(p: Packet, sendOk: bool) {
    p.ctrl == RST || p.ctrl == FIN_ACK || (p.ctrl == FIN && sendOk)
  }

  /** Every change of state of slot `i`, with its one cause. */
  ghost predicate Diagram(c: Ctx, a: Action, now: nat, i: nat, s: State, s': State)
    requires i < |c.conns|
  {
    && (s'.Established? && s != s' <==>
          !s.Established? && a.Recv? && Finds(c, a.packet, i)
          && ((a.packet.ctrl == ACK && s.SynRcvd?) || (a.packet.ctrl == SYN_ACK && a.sendOk)))
    && (s'.Closed? && s != s' <==>
          !s.Closed? && ((a.Recv? && Finds(c, a.packet, i) && Ends(a.packet, a.sendOk))
                         || (a.Timers? && RunsOut(c.conns[i], now))))
    && (s'.SynRcvd? && s != s' <==>
          !s.Established? && !s.SynRcvd? && a.Recv? && IsSyn(a.packet) && Hosting(c, a.from) == Some(i))
    && (s'.SynSent? && s != s' <==> !s.SynSent? && a.ConnectTo? && a.addrOk && i == 0)
    && (s'.FinSent? && s != s' <==> s.Established? && a.CloseConn? && a.slot == i)
  }

  lemma SynDiagram(c: Ctx, p: Packet, from: Addr, sendOk: bool, now: nat, i: nat)
    requires CtxOk(c) && i < |c.conns| && IsSyn(p)
    ensures var c' := OnSyn(c, p, from, now).ctx;
            i < |c'.conns| && Diagram(c, Recv(p, from, sendOk), now, i, c.conns[i].state, c'.conns[i].state)
  {
  }

  lemma AddressedDiagram(c: Ctx, p: Packet, from: Addr, sendOk: bool, now: nat, i: nat)
    requires CtxOk(c) && i < |c.conns| && IsAddressed(p)
    ensures var c' := OnAddressed(c, p, from, now, sendOk).ctx;
            i < |c'.conns| && Diagram(c, Recv(p, from, sendOk), now, i, c.conns[i].state, c'.conns[i].state)
  {
  }

  lemma RecvDiagram(c: Ctx, p: Packet, from: Addr, sendOk: bool, now: nat, i: nat)
    requires CtxOk(c) && i < |c.conns|
    ensures var c' := Receive(c, p, from, now, sendOk).ctx;
            i < |c'.conns| && Diagram(c, Recv(p, from, sendOk), now, i, c.conns[i].state, c'.conns[i].state)
  {
    if IsSyn(p) {
      SynDiagram(c, p, from, sendOk, now, i);
    } else if IsAddressed(p) {
      AddressedDiagram(c, p, from, sendOk, now, i);
    }
  }

  lemma TimerDiagram(con: Conn, now: nat, reliable: seq<bool>)
    requires ConnOk(con, reliable)
    ensures TimerEffect(con, now, reliable).con.state == if RunsOut(con, now) then Closed else con.state
  {
    if con.state.Established? {
      TransmitKeepsTimer(con, 0, now);
    }
  }

  /** Transmission leaves everything but the channels and the losses. */
  lemma {:induction false} TransmitKeepsTimer(con: Conn, ch: nat, now: nat)
    requires con.channels.Some? && ch <= |con.channels.value|
    ensures var after := TransmitFrom(con, ch, now).con;
            after == con.(channels := after.channels, lossCount := after.lossCount)
    decreases |con.channels.value| - ch
  {
    if ch < |con.channels.value| {
      TransmitKeepsTimer(TransmitOne(con, ch, now).con, ch + 1, now);
    }
  }

  /** In every action, of any context, each slot changes its state exactly as the diagram says. */
  lemma StateDiagram(n: Node, a: Action, now: nat, i: nat)
    requires CtxOk(n.ctx) && ActionOk(n, a) && i < |n.ctx.conns|
    ensures var c' := Act(n, a, now).0.ctx;
            i < |c'.conns| && Diagram(n.ctx, a, now, i, n.ctx.conns[i].state, c'.conns[i].state)
  {
    match a
    case Recv(p, from, sendOk) => RecvDiagram(n.ctx, p, from, sendOk, now, i);
    case Timers =>
      TimersFromConn(n.ctx, 0, now, i);
      TimerDiagram(n.ctx.conns[i], now, n.ctx.reliable);
    case _ => CallDiagram(n, a, now, i);
  }

  lemma CallDiagram(n: Node, a: Action, now: nat, i: nat)
    requires CtxOk(n.ctx) && ActionOk(n, a) && !a.Recv? && !a.Timers? && i < |n.ctx.conns|
    ensures var c' := Act(n, a, now).0.ctx;
            i < |c'.conns| && Diagram(n.ctx, a, now, i, n.ctx.conns[i].state, c'.conns[i].state)
  {
  }
}
