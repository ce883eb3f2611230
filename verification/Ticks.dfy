/**
 A tick of the library as a run of the actions the theorems speak of: one for each packet it consumes, and
 one for its timers. So what holds after every run of actions holds after every tick.
 */
module Ticks {
  import opened Protocol
  import opened Endpoint
  import opened Runs
  import opened Node

  /** Everything the actions of a run send, in order. */
  ghost function Outputs(nodes: seq<Node>, run: seq<Timed>): seq<Datagram>
    requires IsRun(AnyStep, nodes, run)
    decreases |run|
  {
    if run == [] then []
    else
      assert AnyStep(nodes[0], run[0], nodes[1]);
      assert IsRun(AnyStep, nodes[1..], run[1..]) by { TailIsRun(nodes, run); }
      Act(nodes[0], run[0].action, run[0].now).1 + Outputs(nodes[1..], run[1..])
  }

  lemma TailIsRun(nodes: seq<Node>, run: seq<Timed>)
    requires IsRun(AnyStep, nodes, run) && run != []
    ensures IsRun(AnyStep, nodes[1..], run[1..])
  {
    forall k | 0 <= k < |run| - 1 ensures AnyStep(nodes[1..][k], run[1..][k], nodes[1..][k + 1]) {
      assert AnyStep(nodes[k + 1], run[k + 1], nodes[k + 2]);
    }
  }

  lemma StepThen(n: Node, t: Timed, nodes: seq<Node>, run: seq<Timed>)
    requires IsRun(AnyStep, nodes, run) && AnyStep(n, t, nodes[0])
    ensures IsRun(AnyStep, [n] + nodes, [t] + run)
    ensures Outputs([n] + nodes, [t] + run) == Act(n, t.action, t.now).1 + Outputs(nodes, run)
  {
    forall k | 0 <= k < |run| + 1 ensures AnyStep(([n] + nodes)[k], ([t] + run)[k], ([n] + nodes)[k + 1]) {
      if k > 0 {
        assert AnyStep(nodes[k - 1], run[k - 1], nodes[k]);
      }
    }
    assert ([n] + nodes)[1..] == nodes && ([t] + run)[1..] == run;
  }

  /** The timers alone. */
  lemma TimersAreRun(n: Node, now: nat)
    requires CtxOk(n.ctx)
    ensures var nodes, run := [n, ActTimers(n, now).0], [Timed(Timers, now)];
            && IsRun(AnyStep, nodes, run)
            && Outputs(nodes, run) == TimersFrom(n.ctx, 0, now).sent
  {
    var n' := ActTimers(n, now).0;
    var nodes, run := [n, n'], [Timed(Timers, now)];
    assert AnyStep(n, Timed(Timers, now), n');
    assert nodes[1..] == [n'] && run[1..] == [];
    assert Outputs([n'], []) == [];
  }

  /** A run of receptions and then the timers, which ends and sends as handling an inbox and ticking does. */
  ghost predicate RunOf(n: Node, inbox: seq<Arrival>, now: nat, nodes: seq<Node>, run: seq<Timed>) {
    && CtxOk(n.ctx) && IsRun(AnyStep, nodes, run) && nodes[0] == n && |run| == ValidCount(inbox) + 1
    && run[|run| - 1] == Timed(Timers, now) && (forall k :: 0 <= k < |run| - 1 ==> run[k].action.Recv?)
    && CtxOk(ReceiveAll(n.ctx, inbox).ctx)
    && var received := ReceiveAll(n.ctx, inbox);
       var timed := TimersFrom(received.ctx, 0, now);
       nodes[|run|].ctx == timed.ctx && Outputs(nodes, run) == received.sent + timed.sent
  }

  lemma FirstReception(n: Node, n': Node, inbox: seq<Arrival>, now: nat, nodes: seq<Node>, run: seq<Timed>)
    requires CtxOk(n.ctx) && inbox != [] && inbox[0].Valid?
    requires n' == ActRecv(n, inbox[0].packet, inbox[0].from, inbox[0].sendOk, inbox[0].now).0
    requires RunOf(n', inbox[1..], now, nodes, run)
    ensures var a := inbox[0]; RunOf(n, inbox, now, [n] + nodes, [Timed(Recv(a.packet, a.from, a.sendOk), a.now)] + run)
  {
    var a := inbox[0];
    var t := Timed(Recv(a.packet, a.from, a.sendOk), a.now);
    var received := ReceiveAll(n'.ctx, inbox[1..]);
    StepThen(n, t, nodes, run);
    AppendAssociates(Act(n, t.action, t.now).1, received.sent, TimersFrom(received.ctx, 0, now).sent);
  }

  /** Handling an inbox and then running the timers: a reception for each packet, and one step more. */
  lemma {:induction false} InboxIsRun(n: Node, inbox: seq<Arrival>, now: nat) returns (nodes: seq<Node>, run: seq<Timed>)
    requires CtxOk(n.ctx)
    ensures RunOf(n, inbox, now, nodes, run)
    decreases |inbox|
  {
    ReceiveAllOk(n.ctx, inbox);
    if inbox == [] {
      TimersAreRun(n, now);
      nodes, run := [n, ActTimers(n, now).0], [Timed(Timers, now)];
    } else if inbox[0].Garbage? {
      nodes, run := InboxIsRun(n, inbox[1..], now);
    } else {
      var a := inbox[0];
      var n' := ActRecv(n, a.packet, a.from, a.sendOk, a.now).0;
      ReceiveOk(n.ctx, a.packet, a.from, a.now, a.sendOk);
      nodes, run := InboxIsRun(n', inbox[1..], now);
      FirstReception(n, n', inbox, now, nodes, run);
      nodes, run := [n] + nodes, [Timed(Recv(a.packet, a.from, a.sendOk), a.now)] + run;
    }
  }

  /** A tick is at most sixteen receptions, then the timers; it ends where they do and sends what they send. */
  lemma TickIsRun(n: Node, inbox: seq<Arrival>, now: nat) returns (nodes: seq<Node>, run: seq<Timed>)
    requires CtxOk(n.ctx)
    ensures IsRun(AnyStep, nodes, run) && nodes[0] == n
    ensures nodes[|run|].ctx == Tick(n.ctx, inbox, now).ctx
    ensures Outputs(nodes, run) == Tick(n.ctx, inbox, now).sent
    ensures 1 <= |run| <= RECV_LIMIT_PER_TICK + 1 && run[|run| - 1] == Timed(Timers, now)
    ensures forall k :: 0 <= k < |run| - 1 ==> run[k].action.Recv?
  {
    nodes, run := InboxIsRun(n, inbox[..Consumed(inbox, RECV_LIMIT_PER_TICK)], now);
  }
}
