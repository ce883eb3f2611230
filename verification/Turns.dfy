/**
 Schedules of whole ticks. A turn is one tick of one end, with the packets its socket yields, or a pause; a
 schedule of turns is a run of a session, and each tick in it is a tick of the library.
 */
module Turns {
  import opened Protocol
  import opened Endpoint
  import opened Node
  import opened Session

  datatype Mail = Mail(packet: Packet, from: Addr)

  datatype Turn = TickClient(inbox: seq<Mail>) | TickServer(inbox: seq<Mail>) | Pause(ms: nat)

  function StepOf(client: bool, a: Action): Step {
    if client then AtClient(a) else AtServer(a)
  }

  /** One reception for each packet, then the timers. */
  function TickSteps(client: bool, inbox: seq<Mail>): seq<Step> {
    if inbox == [] then [StepOf(client, Timers)]
    else [StepOf(client, Recv(inbox[0].packet, inbox[0].from, true))] + TickSteps(client, inbox[1..])
  }

  function TurnSteps(t: Turn): seq<Step> {
    match t
    case TickClient(inbox) => TickSteps(true, inbox)
    case TickServer(inbox) => TickSteps(false, inbox)
    case Pause(ms) => [Wait(ms)]
  }

  function Schedule(turns: seq<Turn>): seq<Step> {
    if turns == [] then [] else TurnSteps(turns[0]) + Schedule(turns[1..])
  }

  lemma {:induction false} ScheduleAppend(a: seq<Turn>, b: seq<Turn>)
    ensures Schedule(a + b) == Schedule(a) + Schedule(b)
    decreases |a|
  {
    if a == [] {
      assert a + b == b;
    } else {
      assert (a + b)[1..] == a[1..] + b;
      ScheduleAppend(a[1..], b);
      AppendAssociates(TurnSteps(a[0]), Schedule(a[1..]), Schedule(b));
    }
  }

  /** The schedule is possible, and ends in `end`. */
  ghost predicate Plays(s: Sys, turns: seq<Turn>, end: Sys) {
    Possible(s, Schedule(turns)) && Final(s, Schedule(turns)) == end
  }

  lemma PlaysOne(s: Sys, t: Turn)
    requires Possible(s, TurnSteps(t))
    ensures Plays(s, [t], Final(s, TurnSteps(t)))
  {
    assert [t][1..] == [];
    assert Schedule([t]) == TurnSteps(t) + [] == TurnSteps(t);
  }

  lemma PlaysThen(s: Sys, a: seq<Turn>, middle: Sys, b: seq<Turn>, end: Sys)
    requires Plays(s, a, middle) && Plays(middle, b, end)
    ensures Plays(s, a + b, end)
  {
    ScheduleAppend(a, b);
    PossibleAppend(s, Schedule(a), Schedule(b));
  }

  // ---------- Ticks, packet by packet ----------

  function TickOf(client: bool, inbox: seq<Mail>): Turn {
    if client then TickClient(inbox) else TickServer(inbox)
  }

  /** A tick with this inbox is possible, and ends in `s'`. */
  ghost predicate TickedTo(s: Sys, client: bool, inbox: seq<Mail>, s': Sys) {
    Possible(s, TickSteps(client, inbox)) && Final(s, TickSteps(client, inbox)) == s'
  }

  /** A tick that finds `m` first goes on from `s1`. */
  ghost predicate Hears(s: Sys, client: bool, m: Mail, s1: Sys) {
    forall rest: seq<Mail>, s': Sys :: TickedTo(s1, client, rest, s') ==> TickedTo(s, client, [m] + rest, s')
  }

  lemma QuietTick(s: Sys, client: bool, s': Sys)
    requires Enabled(s, StepOf(client, Timers)) && s' == Next(s, StepOf(client, Timers))
    ensures TickedTo(s, client, [], s')
  {
    FirstThen(s, StepOf(client, Timers), s', []);
    assert [StepOf(client, Timers)] + [] == [StepOf(client, Timers)];
  }

  lemma HearsMail(s: Sys, client: bool, m: Mail, s1: Sys)
    requires Enabled(s, StepOf(client, Recv(m.packet, m.from, true)))
    requires s1 == Next(s, StepOf(client, Recv(m.packet, m.from, true)))
    ensures Hears(s, client, m, s1)
  {
    forall rest: seq<Mail>, s': Sys | TickedTo(s1, client, rest, s') ensures TickedTo(s, client, [m] + rest, s') {
      assert ([m] + rest)[1..] == rest;
      FirstThen(s, StepOf(client, Recv(m.packet, m.from, true)), s1, TickSteps(client, rest));
    }
  }

  lemma TickPlays(s: Sys, client: bool, inbox: seq<Mail>, s': Sys)
    requires TickedTo(s, client, inbox, s')
    ensures Plays(s, [TickOf(client, inbox)], s')
  {
    PlaysOne(s, TickOf(client, inbox));
  }

  // ---------- The two ends exchanged ----------

  /** The session with the two ends in each other's places. */
  function Mirror(s: Sys): Sys {
    Sys(s.server, s.client, s.toClient, s.toServer, s.now)
  }

  function MirrorTurn(t: Turn): Turn {
    match t
    case TickClient(inbox) => TickServer(inbox)
    case TickServer(inbox) => TickClient(inbox)
    case Pause(_) => t
  }

  function MirrorTurns(turns: seq<Turn>): (mirrored: seq<Turn>)
    ensures |mirrored| == |turns|
  {
    seq(|turns|, i requires 0 <= i < |turns| => MirrorTurn(turns[i]))
  }

  function MirrorStep(st: Step): Step {
    match st
    case AtClient(a) => AtServer(a)
    case AtServer(a) => AtClient(a)
    case Wait(_) => st
  }

  ghost predicate NoConnect(st: Step) {
    st.Wait? || !st.action.ConnectTo?
  }

  /** Connecting apart, an end can do in the other's place what it can do in its own. */
  lemma MirrorStepActs(s: Sys, st: Step)
    requires Enabled(s, st) && NoConnect(st)
    ensures Enabled(Mirror(s), MirrorStep(st)) && Next(Mirror(s), MirrorStep(st)) == Mirror(Next(s, st))
  {
  }

  function MirrorSteps(steps: seq<Step>): seq<Step> {
    if steps == [] then [] else [MirrorStep(steps[0])] + MirrorSteps(steps[1..])
  }

  lemma {:induction false} MirrorRun(s: Sys, steps: seq<Step>)
    requires Possible(s, steps) && forall i :: 0 <= i < |steps| ==> NoConnect(steps[i])
    ensures Possible(Mirror(s), MirrorSteps(steps)) && Final(Mirror(s), MirrorSteps(steps)) == Mirror(Final(s, steps))
    decreases |steps|
  {
    if steps != [] {
      MirrorStepActs(s, steps[0]);
      MirrorRun(Next(s, steps[0]), steps[1..]);
      FirstThen(Mirror(s), MirrorStep(steps[0]), Mirror(Next(s, steps[0])), MirrorSteps(steps[1..]));
    }
  }

  lemma {:induction false} MirrorAppend(a: seq<Step>, b: seq<Step>)
    ensures MirrorSteps(a + b) == MirrorSteps(a) + MirrorSteps(b)
    decreases |a|
  {
    if a == [] {
      assert a + b == b;
    } else {
      assert (a + b)[1..] == a[1..] + b;
      MirrorAppend(a[1..], b);
      assert [MirrorStep(a[0])] + MirrorSteps(a[1..]) + MirrorSteps(b)
          == [MirrorStep(a[0])] + (MirrorSteps(a[1..]) + MirrorSteps(b));
    }
  }

  lemma {:induction false} MirrorTick(client: bool, inbox: seq<Mail>)
    ensures MirrorSteps(TickSteps(client, inbox)) == TickSteps(!client, inbox)
    ensures forall i :: 0 <= i < |TickSteps(client, inbox)| ==> NoConnect(TickSteps(client, inbox)[i])
    decreases |inbox|
  {
    if inbox == [] {
      var timers := StepOf(client, Timers);
      assert [timers][1..] == [];
      assert MirrorSteps([timers]) == [MirrorStep(timers)] + [] == [MirrorStep(timers)];
    } else {
      var first := StepOf(client, Recv(inbox[0].packet, inbox[0].from, true));
      MirrorTick(client, inbox[1..]);
      assert ([first] + TickSteps(client, inbox[1..]))[1..] == TickSteps(client, inbox[1..]);
    }
  }

  lemma {:induction false} MirrorSchedule(turns: seq<Turn>)
    ensures Schedule(MirrorTurns(turns)) == MirrorSteps(Schedule(turns))
    ensures forall i :: 0 <= i < |Schedule(turns)| ==> NoConnect(Schedule(turns)[i])
    decreases |turns|
  {
    if turns != [] {
      MirrorSchedule(turns[1..]);
      assert MirrorTurns(turns)[1..] == MirrorTurns(turns[1..]);
      MirrorAppend(TurnSteps(turns[0]), Schedule(turns[1..]));
      match turns[0] {
        case TickClient(inbox) => MirrorTick(true, inbox);
        case TickServer(inbox) => MirrorTick(false, inbox);
        case Pause(ms) =>
          assert [Wait(ms)][1..] == [];
          assert MirrorSteps([Wait(ms)]) == [Wait(ms)] + [] == [Wait(ms)];
      }
    }
  }

  /** A schedule can be played with the two ends exchanged. */
  lemma MirrorPlays(s: Sys, turns: seq<Turn>, end: Sys)
    requires Plays(s, turns, end)
    ensures Plays(Mirror(s), MirrorTurns(turns), Mirror(end))
  {
    MirrorSchedule(turns);
    MirrorRun(s, Schedule(turns));
  }

  // ---------- A tick turn is a tick ----------

  ghost function EndOf(s: Sys, client: bool): Node {
    if client then s.client else s.server
  }

  /** The packets on their way to an end, and the packets it has sent. */
  ghost function Inbound(s: Sys, client: bool): set<Packet> {
    if client then s.toClient else s.toServer
  }

  ghost function Outbound(s: Sys, client: bool): set<Packet> {
    if client then s.toServer else s.toClient
  }

  function Arrivals(inbox: seq<Mail>, now: nat): (arrivals: seq<Arrival>)
    ensures |arrivals| == |inbox|
  {
    seq(|inbox|, i requires 0 <= i < |inbox| => Valid(inbox[i].packet, inbox[i].from, now, true))
  }

  lemma {:induction false} AllMailConsumed(inbox: seq<Mail>, now: nat, limit: nat)
    requires |inbox| <= limit
    ensures Consumed(Arrivals(inbox, now), limit) == |inbox|
    decreases |inbox|
  {
    if inbox != [] {
      assert Arrivals(inbox, now)[1..] == Arrivals(inbox[1..], now);
      AllMailConsumed(inbox[1..], now, limit - 1);
    }
  }

  /** InTransit mail: sent before, and from somewhere. */
  ghost predicate InTransit(s: Sys, client: bool, inbox: seq<Mail>) {
    forall i :: 0 <= i < |inbox| ==> inbox[i].packet in Inbound(s, client) && inbox[i].from != NO_ADDR
  }

  /** What one end did: it moved to `ctx`, sent `sent`, and nothing else changed. */
  ghost predicate Did(s: Sys, s': Sys, client: bool, ctx: Ctx, sent: seq<Datagram>) {
    && EndOf(s', client).ctx == ctx && EndOf(s', !client) == EndOf(s, !client)
    && Outbound(s', client) == Outbound(s, client) + Packets(sent)
    && Inbound(s', client) == Inbound(s, client) && s'.now == s.now
  }

  lemma PacketsAppend(a: seq<Datagram>, b: seq<Datagram>)
    ensures Packets(a + b) == Packets(a) + Packets(b)
  {
    forall q ensures q in Packets(a + b) <==> q in Packets(a) + Packets(b) {
      if q in Packets(a) {
        var d :| d in a && d.packet == q;
        assert d in a + b;
      }
      if q in Packets(b) {
        var d :| d in b && d.packet == q;
        assert d in a + b;
      }
    }
  }

  lemma OneReception(s: Sys, client: bool, m: Mail)
    requires CtxOk(EndOf(s, client).ctx) && m.packet in Inbound(s, client) && m.from != NO_ADDR
    ensures var st := StepOf(client, Recv(m.packet, m.from, true));
            var out := Receive(EndOf(s, client).ctx, m.packet, m.from, s.now, true);
            Enabled(s, st) && Did(s, Next(s, st), client, out.ctx, out.sent)
  {
  }

  lemma OneTimers(s: Sys, client: bool)
    requires CtxOk(EndOf(s, client).ctx)
    ensures var out := TimersFrom(EndOf(s, client).ctx, 0, s.now);
            Enabled(s, StepOf(client, Timers)) && Did(s, Next(s, StepOf(client, Timers)), client, out.ctx, out.sent)
  {
  }

  lemma DidTwice(s: Sys, s1: Sys, s2: Sys, client: bool, c1: Ctx, sent1: seq<Datagram>, c2: Ctx, sent2: seq<Datagram>)
    requires Did(s, s1, client, c1, sent1) && Did(s1, s2, client, c2, sent2)
    ensures Did(s, s2, client, c2, sent1 + sent2)
  {
    PacketsAppend(sent1, sent2);
  }

  lemma {:induction false} TickStepsDo(s: Sys, client: bool, inbox: seq<Mail>)
    requires CtxOk(EndOf(s, client).ctx) && InTransit(s, client, inbox)
    ensures CtxOk(ReceiveAll(EndOf(s, client).ctx, Arrivals(inbox, s.now)).ctx)
    ensures Possible(s, TickSteps(client, inbox))
    ensures var received := ReceiveAll(EndOf(s, client).ctx, Arrivals(inbox, s.now));
            var timed := TimersFrom(received.ctx, 0, s.now);
            Did(s, Final(s, TickSteps(client, inbox)), client, timed.ctx, received.sent + timed.sent)
    decreases |inbox|
  {
    var c := EndOf(s, client).ctx;
    ReceiveAllOk(c, Arrivals(inbox, s.now));
    if inbox == [] {
      OneTimers(s, client);
      FirstThen(s, StepOf(client, Timers), Next(s, StepOf(client, Timers)), []);
      assert [StepOf(client, Timers)] + [] == TickSteps(client, inbox);
    } else {
      var m := inbox[0];
      var st := StepOf(client, Recv(m.packet, m.from, true));
      var out := Receive(c, m.packet, m.from, s.now, true);
      OneReception(s, client, m);
      ReceiveOk(c, m.packet, m.from, s.now, true);
      var s1 := Next(s, st);
      assert Arrivals(inbox, s.now)[1..] == Arrivals(inbox[1..], s1.now);
      TickStepsDo(s1, client, inbox[1..]);
      FirstThen(s, st, s1, TickSteps(client, inbox[1..]));
      var received := ReceiveAll(out.ctx, Arrivals(inbox[1..], s.now));
      var timed := TimersFrom(received.ctx, 0, s.now);
      DidTwice(s, s1, Final(s1, TickSteps(client, inbox[1..])), client, out.ctx, out.sent, timed.ctx, received.sent + timed.sent);
      AppendAssociates(out.sent, received.sent, timed.sent);
    }
  }

  /** The steps of a tick turn are possible, and do to the end and to the network what the library's tick does. */
  lemma TurnIsTick(s: Sys, client: bool, inbox: seq<Mail>)
    requires CtxOk(EndOf(s, client).ctx) && InTransit(s, client, inbox) && |inbox| <= RECV_LIMIT_PER_TICK
    ensures Possible(s, TickSteps(client, inbox))
    ensures var tick := Tick(EndOf(s, client).ctx, Arrivals(inbox, s.now), s.now);
            Did(s, Final(s, TickSteps(client, inbox)), client, tick.ctx, tick.sent)
  {
    TickStepsDo(s, client, inbox);
    AllMailConsumed(inbox, s.now, RECV_LIMIT_PER_TICK);
    assert Arrivals(inbox, s.now)[..|inbox|] == Arrivals(inbox, s.now);
  }
}
