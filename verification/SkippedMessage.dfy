/**
 A run in which a message is acknowledged and lost: the application sends before a repeated SYN|ACK is
 answered, so the answer carries a counter that is one ahead, and the server only logs the difference.
 */
module SkippedMessage {
  import opened Wrappers
  import opened Protocol
  import opened Endpoint
  import opened Node
  import opened NodeSteps
  import opened Session
  import opened EndToEnd

  const CLIENT_ADDR := Addr(1, 1)
  const SERVER_ADDR := Addr(2, 2)
  const ID := ConnId(0, 1)
  const MESSAGE: Payload := [7]

  const SYN_PACKET := Packet(SYN, 0, UNASSIGNED, 100, 0, [])
  const SYN_ACK_PACKET := Packet(SYN_ACK, 0, ID, 200, 100, [])
  const FIRST_ACK := Packet(ACK, 0, ID, 100, 200, [])
  const LATE_ACK := Packet(ACK, 0, ID, 101, 200, [])
  const DATA_PACKET := Packet(DATA, 0, ID, 100, 200, MESSAGE)
  const DATA_ACK_PACKET := Packet(DATA_ACK, 0, ID, 200, 100, [])

  /** A context of one connection and one reliable channel. */
  function One(con: Conn, events: seq<Event>, clientId: U16, iss: U32, blocks: int): Ctx {
    Ctx([con], [true], events, 8, clientId, 0, iss, SERVER_ADDR, blocks)
  }

  function Fresh(c: Ctx): Node {
    Node(c, [EMPTY_BOOK], 0, 0, UNASSIGNED, 0, 0, false)
  }

  function Opened(c: Ctx, b: Book, seq0: U32, ack0: U32, agreed: bool): Node {
    Node(c, [b], 1, 0, ID, seq0, ack0, agreed)
  }

  // ---------- The states of the client ----------

  const CLIENT_CALLING := Conn(SERVER_ADDR, UNASSIGNED, SynSent, 0, 0, 0, 0, 100, 0, None, 1, 0)
  const CLIENT_WAITING := Conn(SERVER_ADDR, UNASSIGNED, SynSent, 1, 0, 0, 0, 100, 0, None, 101, 0)

  function ClientConn1(seqNo: U32, queue: seq<Entry>): Conn {
    Conn(SERVER_ADDR, ID, Established, 1, 0, 0, 0, 100, 200, Some([Chan(true, seqNo, 200, queue, [])]), 101, 201)
  }

  function Client0(): Node { Fresh(One(ZEROED, [], 1, 100, 0)) }

  function Client1(): Node { Fresh(One(CLIENT_CALLING, [], 1, 100, 0)) }

  function Client2(): Node { Fresh(One(CLIENT_WAITING, [], 1, 100, 0)) }

  function Client3(): Node {
    Opened(One(ClientConn1(100, []), [Event(0, Connected)], 1, 100, 3), EMPTY_BOOK, 100, 200, true)
  }

  function Client4(): Node {
    Opened(One(ClientConn1(101, [Entry(DATA_PACKET, 1, 0)]), [Event(0, Connected)], 1, 100, 3),
           EMPTY_BOOK.(sent := [MESSAGE]), 100, 200, true)
  }

  function Client5(): Node {
    Opened(One(ClientConn1(101, [Entry(DATA_PACKET, 101, 1)]), [Event(0, Connected)], 1, 100, 3),
           EMPTY_BOOK.(sent := [MESSAGE]), 100, 200, true)
  }

  function Client6(): Node {
    Opened(One(ClientConn1(101, []), [Event(0, Connected)], 1, 100, 3),
           EMPTY_BOOK.(sent := [MESSAGE], base := 1), 100, 200, true)
  }

  // ---------- The states of the server ----------

  function Server0(): Node { Fresh(One(ZEROED, [], 1, 200, 0)) }

  function Server1(): Node {
    Fresh(One(Conn(CLIENT_ADDR, ID, SynRcvd, 0, 0, 0, 0, 200, 100, None, 1, 0), [], 2, 200, 0))
  }

  function Server2(): Node {
    Fresh(One(Conn(CLIENT_ADDR, ID, SynRcvd, 1, 0, 0, 0, 200, 100, None, 101, 0), [], 2, 200, 0))
  }

  function Server3(): Node {
    Opened(One(Conn(CLIENT_ADDR, ID, Established, 1, 0, 0, 0, 200, 100, Some([Chan(true, 200, 101, [], [])]), 101, 201),
               [Event(0, Connected)], 2, 200, 3), EMPTY_BOOK, 200, 101, false)
  }

  // ---------- One step of one end ----------

  lemma ClientConnects()
    ensures Act(Client0(), ConnectTo(true), 1) == (Client1(), [])
  {
    assert [ZEROED][0 := CLIENT_CALLING] == [CLIENT_CALLING];
  }

  /** The timers of a context of one connection. */
  lemma TimersOfOne(con: Conn, events: seq<Event>, clientId: U16, iss: U32, blocks: int, now: nat)
    requires ConnOk(con, [true]) && |events| <= 8
    ensures CtxOk(One(con, events, clientId, iss, blocks))
    ensures var e := TimerEffect(con, now, [true]);
            TimersFrom(One(con, events, clientId, iss, blocks), 0, now)
            == Outcome(One(e.con, PushNotes(events, 8, 0, e.notes), clientId, iss, blocks + e.blocks), e.sent)
  {
    var c := One(con, events, clientId, iss, blocks);
    var e := TimerEffect(con, now, [true]);
    var here := TimerOutcome(c, 0, now);
    assert [con][0 := e.con] == [e.con];
    TimerOutcomeOk(c, 0, now);
    assert TimersFrom(here.ctx, 1, now) == Outcome(here.ctx, []);
    assert here.sent + [] == here.sent;
  }

  lemma ClientSendsSyn()
    ensures Act(Client1(), Timers, 1) == (Client2(), [Datagram(SERVER_ADDR, SYN_PACKET)])
  {
    TimersOfOne(CLIENT_CALLING, [], 1, 100, 0, 1);
    assert TimerEffect(CLIENT_CALLING, 1, [true]) == Effect(CLIENT_WAITING, [], [Datagram(SERVER_ADDR, SYN_PACKET)], 0);
  }

  lemma ServerSendsSynAck()
    ensures Act(Server1(), Timers, 1) == (Server2(), [Datagram(CLIENT_ADDR, SYN_ACK_PACKET)])
  {
    var con := Server1().ctx.conns[0];
    TimersOfOne(con, [], 2, 200, 0, 1);
    assert TimerEffect(con, 1, [true]) == Effect(Server2().ctx.conns[0], [], [Datagram(CLIENT_ADDR, SYN_ACK_PACKET)], 0);
  }

  lemma ClientSendsData()
    ensures Act(Client4(), Timers, 1) == (Client5(), [Datagram(SERVER_ADDR, DATA_PACKET)])
  {
    var con, after := Client4().ctx.conns[0], Client5().ctx.conns[0];
    TimersOfOne(con, [Event(0, Connected)], 1, 100, 3, 1);
    var t := TransmitHead(con.channels.value[0], SERVER_ADDR, 1);
    assert [Entry(DATA_PACKET, 1, 0)][0 := Entry(DATA_PACKET, 101, 1)] == [Entry(DATA_PACKET, 101, 1)];
    assert SetChannel(con, 0, t.chan) == after by {
      assert con.channels.value[0 := t.chan] == after.channels.value;
    }
    assert TransmitFrom(after, 1, 1) == Nothing(after);
    assert TransmitFrom(con, 0, 1) == Effect(after, [], [Datagram(SERVER_ADDR, DATA_PACKET)], 0);
    assert TimerEffect(con, 1, [true]) == Effect(after, [], [Datagram(SERVER_ADDR, DATA_PACKET)], 0);
    ObserveSame(Client4(), Client5());
  }

  /** Nothing left the send queue and nothing was accepted. */
  lemma ObserveSame(n: Node, n': Node)
    requires |n.ctx.conns| == |n'.ctx.conns| == 1 && |n.books| == 1
    requires var before, after := n.ctx.conns[0], n'.ctx.conns[0];
             && before.channels.Some? && after.channels.Some?
             && |before.channels.value| == |after.channels.value| == 1
             && |before.channels.value[0].sendQueue| == |after.channels.value[0].sendQueue|
             && before.channels.value[0].ackNo == after.channels.value[0].ackNo
    ensures Observe(n.books, n.ctx.conns[0], n'.ctx.conns[0], []) == n.books
  {
  }

  lemma FindsTheOne(con: Conn)
    ensures FindById([con], con.connId) == Some(0)
    ensures FindByAddr([con], con.peer) == Some(0)
  {
  }

  lemma ServerTakesSyn()
    ensures Act(Server0(), Recv(SYN_PACKET, CLIENT_ADDR, true), 1) == (Server1(), [])
  {
    var c := Server0().ctx;
    assert FindByAddr(c.conns, CLIENT_ADDR) == None;
    assert FindClosed(c.conns) == Some(0);
    var numbered := ZEROED.(connId := ID, seqNo := 200, ackNo := 100);
    assert GenerateClientId(1, 0) == (ID, 2);
    assert c.conns[0 := numbered] == [numbered];
    assert AssignSlot(c, SYN_PACKET, CLIENT_ADDR) == (c.(conns := [numbered], clientId := 2), Some(0));
    assert [numbered][0 := Server1().ctx.conns[0]] == [Server1().ctx.conns[0]];
    assert SynEffect(numbered, CLIENT_ADDR, 1) == Nothing(Server1().ctx.conns[0]);
    assert OnSyn(c, SYN_PACKET, CLIENT_ADDR, 1) == Outcome(Server1().ctx, []);
  }

  lemma ClientTakesSynAck()
    ensures Act(Client2(), Recv(SYN_ACK_PACKET, SERVER_ADDR, true), 1) == (Client3(), [Datagram(SERVER_ADDR, FIRST_ACK)])
  {
    var after := Client3().ctx.conns[0];
    assert FreshChannels([true], 100, 200) == after.channels.value;
    assert SynAckEffect(CLIENT_WAITING, SYN_ACK_PACKET, 1, true, [true])
        == Effect(after, [Connected], [Datagram(SERVER_ADDR, FIRST_ACK)], 3);
    OneNote([], Connected);
    assert [CLIENT_WAITING][0 := after] == [after];
    assert Receive(Client2().ctx, SYN_ACK_PACKET, SERVER_ADDR, 1, true)
        == Outcome(Client3().ctx, [Datagram(SERVER_ADDR, FIRST_ACK)]);
  }

  lemma OneNote(events: seq<Event>, note: Note)
    requires |events| < 8
    ensures PushNotes(events, 8, 0, [note]) == events + [Event(0, note)]
  {
    assert [note][..0] == [];
  }

  lemma ClientQueues()
    ensures Act(Client3(), SendData(0, 0, MESSAGE), 1) == (Client4(), [])
  {
    var con, after := Client3().ctx.conns[0], Client4().ctx.conns[0];
    assert con.channels.value[0 := after.channels.value[0]] == after.channels.value;
    assert [con][0 := after] == [after];
    assert [] + [Entry(DATA_PACKET, 1, 0)] == [Entry(DATA_PACKET, 1, 0)];
    assert Send(Client3().ctx, 0, 0, MESSAGE, 1) == (Client4().ctx, Success);
    assert [] + [MESSAGE] == [MESSAGE];
    assert [EMPTY_BOOK][0 := EMPTY_BOOK.(sent := [MESSAGE])] == [EMPTY_BOOK.(sent := [MESSAGE])];
  }

  lemma ClientTakesSynAckAgain()
    ensures Act(Client4(), Recv(SYN_ACK_PACKET, SERVER_ADDR, true), 1) == (Client4(), [Datagram(SERVER_ADDR, LATE_ACK)])
  {
    var con := Client4().ctx.conns[0];
    assert SynAckEffect(con, SYN_ACK_PACKET, 1, true, [true]) == Effect(con, [], [Datagram(SERVER_ADDR, LATE_ACK)], 0);
    assert [con][0 := con] == [con];
    assert Receive(Client4().ctx, SYN_ACK_PACKET, SERVER_ADDR, 1, true)
        == Outcome(Client4().ctx, [Datagram(SERVER_ADDR, LATE_ACK)]);
    ObserveUnmoved(Client4().books, con, con, []);
  }

  lemma ServerTakesLateAck()
    ensures Act(Server2(), Recv(LATE_ACK, CLIENT_ADDR, true), 1) == (Server3(), [])
  {
    var con, after := Server2().ctx.conns[0], Server3().ctx.conns[0];
    FindsTheOne(con);
    assert FreshChannels([true], 200, 101) == after.channels.value;
    assert AckEffect(con, LATE_ACK, 1, [true]) == Effect(after, [Connected], [], 3);
    OneNote([], Connected);
    assert [con][0 := after] == [after];
    assert Receive(Server2().ctx, LATE_ACK, CLIENT_ADDR, 1, true) == Outcome(Server3().ctx, []);
  }

  lemma ServerTakesData()
    ensures Act(Server3(), Recv(DATA_PACKET, CLIENT_ADDR, true), 1) == (Server3(), [Datagram(CLIENT_ADDR, DATA_ACK_PACKET)])
  {
    var con := Server3().ctx.conns[0];
    FindsTheOne(con);
    assert DataEffect(con, DATA_PACKET, CLIENT_ADDR, [true]) == Effect(con, [], [Datagram(CLIENT_ADDR, DATA_ACK_PACKET)], 0);
    assert [con][0 := con] == [con];
    ObserveUnmoved(Server3().books, con, con, MESSAGE);
  }

  lemma ClientTakesDataAck()
    ensures Act(Client5(), Recv(DATA_ACK_PACKET, SERVER_ADDR, true), 1) == (Client6(), [])
  {
    var con, after := Client5().ctx.conns[0], Client6().ctx.conns[0];
    FindsTheOne(con);
    assert con.channels.value[0 := after.channels.value[0]] == after.channels.value;
    var queue := con.channels.value[0].sendQueue;
    assert queue[0].packet.seqNo == DATA_ACK_PACKET.ackNo && queue[1..] == [];
    assert DataAckEffect(con, DATA_ACK_PACKET, [true]) == Nothing(after);
    assert [con][0 := after] == [after];
    ObserveOneChannel(Client5().books, con, after, 0, []);
    assert Client5().books[0 := Client6().books[0]] == Client6().books;
  }

  // ---------- The run ----------

  /** Both ends at the first millisecond. */
  function At(client: Node, server: Node, up: set<Packet>, down: set<Packet>): Sys {
    Sys(client, server, up, down, 1)
  }

  ghost predicate ReachedBy(steps: seq<Step>, s: Sys) {
    var start := At(Client0(), Server0(), {}, {});
    Possible(start, steps) && Final(start, steps) == s
  }

  lemma PacketsOfOne(d: Datagram)
    ensures Packets([d]) == {d.packet} && Packets([]) == {}
  {
  }

  lemma Extend(steps: seq<Step>, s: Sys, st: Step, s': Sys)
    requires ReachedBy(steps, s) && Enabled(s, st) && Next(s, st) == s'
    ensures ReachedBy(steps + [st], s')
  {
    FirstThen(s, st, s', []);
    assert [st] + [] == [st];
    PossibleAppend(At(Client0(), Server0(), {}, {}), steps, [st]);
  }

  lemma ClientDoes(steps: seq<Step>, s: Sys, a: Action, c: Node, sent: seq<Datagram>)
    requires ReachedBy(steps, s) && s.now == 1 && CtxOk(s.client.ctx) && ActionOk(s.client, a)
    requires a.Recv? ==> a.packet in s.toClient && a.from != NO_ADDR
    requires Act(s.client, a, 1) == (c, sent) && |sent| <= 1
    ensures ReachedBy(steps + [AtClient(a)],
                      At(c, s.server, if sent == [] then s.toServer else s.toServer + {sent[0].packet}, s.toClient))
  {
    if sent != [] {
      PacketsOfOne(sent[0]);
      assert sent == [sent[0]];
    }
    Extend(steps, s, AtClient(a), Next(s, AtClient(a)));
  }

  lemma ServerDoes(steps: seq<Step>, s: Sys, a: Action, c: Node, sent: seq<Datagram>)
    requires ReachedBy(steps, s) && s.now == 1 && CtxOk(s.server.ctx) && ActionOk(s.server, a) && !a.ConnectTo?
    requires a.Recv? ==> a.packet in s.toServer && a.from != NO_ADDR
    requires Act(s.server, a, 1) == (c, sent) && |sent| <= 1
    ensures ReachedBy(steps + [AtServer(a)],
                      At(s.client, c, s.toServer, if sent == [] then s.toClient else s.toClient + {sent[0].packet}))
  {
    if sent != [] {
      PacketsOfOne(sent[0]);
      assert sent == [sent[0]];
    }
    Extend(steps, s, AtServer(a), Next(s, AtServer(a)));
  }

  /** The client connects and sends its SYN; the server answers. */
  lemma Calling() returns (steps: seq<Step>)
    ensures ReachedBy(steps, At(Client2(), Server2(), {SYN_PACKET}, {SYN_ACK_PACKET}))
  {
    steps := [];
    ClientConnects();
    ClientDoes(steps, At(Client0(), Server0(), {}, {}), ConnectTo(true), Client1(), []);
    steps := steps + [AtClient(ConnectTo(true))];
    ClientSendsSyn();
    ClientDoes(steps, At(Client1(), Server0(), {}, {}), Timers, Client2(), [Datagram(SERVER_ADDR, SYN_PACKET)]);
    steps := steps + [AtClient(Timers)];
    ServerTakesSyn();
    var syn := Recv(SYN_PACKET, CLIENT_ADDR, true);
    ServerDoes(steps, At(Client2(), Server0(), {SYN_PACKET}, {}), syn, Server1(), []);
    steps := steps + [AtServer(syn)];
    ServerSendsSynAck();
    ServerDoes(steps, At(Client2(), Server1(), {SYN_PACKET}, {}), Timers, Server2(), [Datagram(CLIENT_ADDR, SYN_ACK_PACKET)]);
    steps := steps + [AtServer(Timers)];
  }

  /** The client is established, queues a message, and answers a second copy of the SYN|ACK. */
  lemma Answering() returns (steps: seq<Step>)
    ensures ReachedBy(steps, At(Client4(), Server2(), {SYN_PACKET, FIRST_ACK, LATE_ACK}, {SYN_ACK_PACKET}))
  {
    steps := Calling();
    var synAck := Recv(SYN_ACK_PACKET, SERVER_ADDR, true);
    ClientTakesSynAck();
    ClientDoes(steps, At(Client2(), Server2(), {SYN_PACKET}, {SYN_ACK_PACKET}), synAck, Client3(),
               [Datagram(SERVER_ADDR, FIRST_ACK)]);
    steps := steps + [AtClient(synAck)];
    assert {SYN_PACKET} + {FIRST_ACK} == {SYN_PACKET, FIRST_ACK};
    ClientQueues();
    ClientDoes(steps, At(Client3(), Server2(), {SYN_PACKET, FIRST_ACK}, {SYN_ACK_PACKET}), SendData(0, 0, MESSAGE), Client4(), []);
    steps := steps + [AtClient(SendData(0, 0, MESSAGE))];
    ClientTakesSynAckAgain();
    ClientDoes(steps, At(Client4(), Server2(), {SYN_PACKET, FIRST_ACK}, {SYN_ACK_PACKET}), synAck, Client4(),
               [Datagram(SERVER_ADDR, LATE_ACK)]);
    steps := steps + [AtClient(synAck)];
    assert {SYN_PACKET, FIRST_ACK} + {LATE_ACK} == {SYN_PACKET, FIRST_ACK, LATE_ACK};
  }

  /** The server takes the late ACK, and the message is sent. */
  lemma Disagreeing() returns (steps: seq<Step>)
    ensures ReachedBy(steps, At(Client5(), Server3(), {SYN_PACKET, FIRST_ACK, LATE_ACK, DATA_PACKET}, {SYN_ACK_PACKET}))
  {
    steps := Answering();
    var up := {SYN_PACKET, FIRST_ACK, LATE_ACK};
    var late := Recv(LATE_ACK, CLIENT_ADDR, true);
    ServerTakesLateAck();
    ServerDoes(steps, At(Client4(), Server2(), up, {SYN_ACK_PACKET}), late, Server3(), []);
    steps := steps + [AtServer(late)];
    ClientSendsData();
    ClientDoes(steps, At(Client4(), Server3(), up, {SYN_ACK_PACKET}), Timers, Client5(), [Datagram(SERVER_ADDR, DATA_PACKET)]);
    steps := steps + [AtClient(Timers)];
    assert up + {DATA_PACKET} == {SYN_PACKET, FIRST_ACK, LATE_ACK, DATA_PACKET};
  }

  /** The message is acknowledged as one already taken, and dropped. */
  lemma Losing() returns (steps: seq<Step>)
    ensures ReachedBy(steps, At(Client6(), Server3(), {SYN_PACKET, FIRST_ACK, LATE_ACK, DATA_PACKET},
                                {SYN_ACK_PACKET, DATA_ACK_PACKET}))
  {
    steps := Disagreeing();
    var up := {SYN_PACKET, FIRST_ACK, LATE_ACK, DATA_PACKET};
    var data := Recv(DATA_PACKET, CLIENT_ADDR, true);
    ServerTakesData();
    ServerDoes(steps, At(Client5(), Server3(), up, {SYN_ACK_PACKET}), data, Server3(),
               [Datagram(CLIENT_ADDR, DATA_ACK_PACKET)]);
    steps := steps + [AtServer(data)];
    assert {SYN_ACK_PACKET} + {DATA_ACK_PACKET} == {SYN_ACK_PACKET, DATA_ACK_PACKET};
    var ack := Recv(DATA_ACK_PACKET, SERVER_ADDR, true);
    ClientTakesDataAck();
    ClientDoes(steps, At(Client5(), Server3(), up, {SYN_ACK_PACKET, DATA_ACK_PACKET}), ack, Client6(), []);
    steps := steps + [AtClient(ack)];
  }

  /** A reachable state: the message has left the send queue, acknowledged, and was never accepted. */
  lemma AcknowledgedAndLost() returns (start: Sys, steps: seq<Step>)
    ensures Possible(start, steps) && Reachable(Final(start, steps), start, steps)
    ensures var s := Final(start, steps);
            && s.client.established == 1 && s.server.established == 1 && !s.server.agreed
            && SharedChannel(s.client, s.server, 0)
            && s.client.books[0].sent == [MESSAGE] && s.client.books[0].base == 1
            && s.server.books[0].accepted == []
  {
    start := At(Client0(), Server0(), {}, {});
    steps := Losing();
  }
}
