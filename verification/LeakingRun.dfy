/**
 A run that loses memory: a client closes, is reset while its FIN is unanswered, and connects again.
 */
module LeakingRun {
  import opened Protocol
  import opened Endpoint
  import opened Runs
  import opened Node
  import opened Allocation
  import opened SkippedMessage

  const RST_PACKET := Packet(RST, 0, ID, 0, 0, [])

  const CLOSING := ClientConn1(100, []).(state := FinSent, retry := 0, time := 1)
  const RESET_WHILE_CLOSING := CLOSING.(state := Closed)
  const CALLING_AGAIN := RESET_WHILE_CLOSING.(connId := UNASSIGNED, state := SynSent, ackNo := 0)
  const OPEN_AGAIN := CALLING_AGAIN.(connId := ID, state := Established, ackNo := 200)

  const FIRST := [Event(0, Connected)]
  const SECOND := FIRST + [Event(0, Disconnected(Reset))]
  const THIRD := SECOND + [Event(0, Connected)]

  function Closing(): Node {
    Opened(One(CLOSING, FIRST, 1, 100, 3), EMPTY_BOOK, 100, 200, true)
  }

  function WasReset(): Node {
    Opened(One(RESET_WHILE_CLOSING, SECOND, 1, 100, 3), EMPTY_BOOK, 100, 200, true)
  }

  function CallingAgain(): Node {
    Opened(One(CALLING_AGAIN, SECOND, 1, 100, 3), EMPTY_BOOK, 100, 200, true)
  }

  function OpenedAgain(): Node {
    Opened(One(OPEN_AGAIN, THIRD, 1, 100, 6), EMPTY_BOOK, 100, 200, true).(established := 2)
  }

  lemma Closes()
    ensures Act(Client3(), CloseConn(0), 1) == (Closing(), [])
  {
    assert [ClientConn1(100, [])][0 := CLOSING] == [CLOSING];
  }

  lemma IsReset()
    ensures Act(Closing(), Recv(RST_PACKET, SERVER_ADDR, true), 1) == (WasReset(), [])
  {
    FindsTheOne(CLOSING);
    OneNote(FIRST, Disconnected(Reset));
    assert RstEffect(CLOSING, [true]) == Effect(RESET_WHILE_CLOSING, [Disconnected(Reset)], [], 0);
    assert [CLOSING][0 := RESET_WHILE_CLOSING] == [RESET_WHILE_CLOSING];
    assert Receive(Closing().ctx, RST_PACKET, SERVER_ADDR, 1, true) == Outcome(WasReset().ctx, []);
  }

  lemma CallsAgain()
    ensures Act(WasReset(), ConnectTo(true), 1) == (CallingAgain(), [])
  {
    assert [RESET_WHILE_CLOSING][0 := CALLING_AGAIN] == [CALLING_AGAIN];
  }

  lemma OpensAgain()
    ensures Act(CallingAgain(), Recv(SYN_ACK_PACKET, SERVER_ADDR, true), 1) == (OpenedAgain(), [Datagram(SERVER_ADDR, FIRST_ACK)])
  {
    assert FreshChannels([true], 100, 200) == OPEN_AGAIN.channels.value;
    assert SynAckEffect(CALLING_AGAIN, SYN_ACK_PACKET, 1, true, [true])
        == Effect(OPEN_AGAIN, [Connected], [Datagram(SERVER_ADDR, FIRST_ACK)], 3);
    OneNote(SECOND, Connected);
    assert [CALLING_AGAIN][0 := OPEN_AGAIN] == [OPEN_AGAIN];
    assert Receive(CallingAgain().ctx, SYN_ACK_PACKET, SERVER_ADDR, 1, true)
        == Outcome(OpenedAgain().ctx, [Datagram(SERVER_ADDR, FIRST_ACK)]);
  }

  lemma IsCreated()
    ensures Client0().ctx == Created(1, [true], 8, 100, SERVER_ADDR)
  {
    assert seq(1, i => ZEROED) == [ZEROED];
  }

  /** The states and the actions of the run. */
  function NodeAt(k: nat): Node {
    match k
    case 0 => Client0()
    case 1 => Client1()
    case 2 => Client2()
    case 3 => Client3()
    case 4 => Closing()
    case 5 => WasReset()
    case 6 => CallingAgain()
    case _ => OpenedAgain()
  }

  function ActionAt(k: nat): Timed {
    match k
    case 1 => Timed(Timers, 1)
    case 3 => Timed(CloseConn(0), 1)
    case 4 => Timed(Recv(RST_PACKET, SERVER_ADDR, true), 1)
    case 2 | 6 => Timed(Recv(SYN_ACK_PACKET, SERVER_ADDR, true), 1)
    case _ => Timed(ConnectTo(true), 1)
  }

  lemma EarlyStep(k: nat)
    requires k < 3
    ensures AnyStep(NodeAt(k), ActionAt(k), NodeAt(k + 1))
  {
    match k {
      case 0 => ClientConnects();
      case 1 => ClientSendsSyn();
      case _ => ClientTakesSynAck();
    }
  }

  lemma LateStep(k: nat)
    requires 3 <= k < 7
    ensures AnyStep(NodeAt(k), ActionAt(k), NodeAt(k + 1))
  {
    match k {
      case 3 => Closes();
      case 4 => IsReset();
      case 5 => CallsAgain();
      case _ => OpensAgain();
    }
  }

  /** The reset is the first leaking step. */
  lemma ResetLeaks(k: nat)
    requires k <= 4
    ensures CtxOk(NodeAt(k).ctx) && (Leaking(NodeAt(k).ctx, ActionAt(k).action) <==> k == 4)
  {
    if k < 3 {
      EarlyStep(k);
    } else {
      LateStep(k);
    }
    FindsTheOne(CLOSING);
  }

  /**
   A reset that arrives while a FIN is unanswered leaks: it closes the connection without freeing its
   channels, the next connection replaces them, and destroying the context then leaves three blocks.
   */
  lemma ThreeBlocksAreLost() returns (states: seq<Node>, run: seq<Timed>)
    ensures IsRun(AnyStep, states, run) && |run| == 7
    ensures states[0].ctx == Created(1, [true], 8, 100, SERVER_ADDR)
    ensures forall k :: 0 <= k <= 4 ==> CtxOk(states[k].ctx) && (Leaking(states[k].ctx, run[k].action) <==> k == 4)
    ensures !Tidy(states[5].ctx)
    ensures var c := states[7].ctx; c.blocks - Held(c.conns, c.reliable) == 3
  {
    states, run := seq(8, k requires 0 <= k => NodeAt(k)), seq(7, k requires 0 <= k => ActionAt(k));
    forall k | 0 <= k < 7 ensures AnyStep(NodeAt(k), ActionAt(k), NodeAt(k + 1)) {
      if k < 3 { EarlyStep(k); } else { LateStep(k); }
    }
    IsCreated();
    forall k | 0 <= k <= 4 ensures CtxOk(NodeAt(k).ctx) && (Leaking(NodeAt(k).ctx, ActionAt(k).action) <==> k == 4) {
      ResetLeaks(k);
    }
    assert !Clean(WasReset().ctx.conns[0]);
    assert [OPEN_AGAIN][..0] == [];
  }
}
