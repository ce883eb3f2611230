/**
 Delivery: from every reachable state whose handshake passed its check, a schedule of whole ticks carries all
 that is queued to the other end, unless both ends are at the end of their patience.
 */
module Delivery {
  import opened Wrappers
  import opened Protocol
  import opened Endpoint
  import opened Node
  import opened Session
  import opened EndToEnd
  import opened Turns
  import opened Progress
  import opened Rounds

  // ---------- All of the queue ----------

  /** With nothing left to send, everything sent has been accepted, in order. */
  lemma EmptyQueueMeansAccepted(p: Sys, k: nat)
    requires Linked(p, k) && ChanOf(p.client, k).sendQueue == []
    ensures p.server.books[k].accepted == p.client.books[k].sent
    ensures EnoughRoom(p, k) ==>
              p.server.books[k].popped + Payloads(ChanOf(p.server, k).recvQueue) == p.client.books[k].sent
  {
    SenderView(p, k);
    KeptFromMatch(p.server, k);
    assert ChannelMatches(ChanOf(p.server, k), k, p.server.books[k], p.server.id, p.server.seq0, p.server.ack0);
    assert Dropped(p.client.books[k].sent, 0) == p.client.books[k].sent;
  }

  /** Everything sent at `p` has been accepted at `end`, and if there was room, waits there or has been popped. */
  ghost predicate Drained(p: Sys, end: Sys, k: nat)
    requires Linked(p, k)
  {
    && Linked(end, k) && ChanOf(end.client, k).sendQueue == []
    && end.client.books[k].sent == p.client.books[k].sent
    && end.server.books[k].accepted == p.client.books[k].sent
    && (EnoughRoom(p, k) ==>
          end.server.books[k].popped + Payloads(ChanOf(end.server, k).recvQueue) == p.client.books[k].sent)
  }

  lemma DrainedNow(p: Sys, k: nat)
    requires Linked(p, k) && ChanOf(p.client, k).sendQueue == []
    ensures Drained(p, p, k)
  {
    EmptyQueueMeansAccepted(p, k);
  }

  lemma DrainedAfterRound(p: Sys, p1: Sys, end: Sys, k: nat)
    requires Ready(p, k) && ChanOf(p.client, k).sendQueue != [] && RoundDone(p, p1, k) && Drained(p1, end, k)
    ensures Drained(p, end, k)
  {
  }

  /** A schedule of `length` turns that empties the queue. */
  ghost predicate Drains(p: Sys, turns: seq<Turn>, end: Sys, k: nat, length: nat)
    requires Linked(p, k)
  {
    Sparse(turns) && |turns| == length && Plays(p, turns, end) && Drained(p, end, k)
  }

  lemma RoundThenDrain(p: Sys, round: seq<Turn>, p1: Sys, rest: seq<Turn>, end: Sys, k: nat)
    requires Ready(p, k) && ChanOf(p.client, k).sendQueue != [] && RoundDone(p, p1, k)
    requires Sparse(round) && |round| == 5 && Plays(p, round, p1)
    requires Drains(p1, rest, end, k, 5 * |ChanOf(p1.client, k).sendQueue|)
    ensures Drains(p, round + rest, end, k, 5 * |ChanOf(p.client, k).sendQueue|)
  {
    PlaysThen(p, round, p1, rest, end);
    DrainedAfterRound(p, p1, end, k);
  }

  /** As many rounds as there are messages empty the queue, and all of them arrive. */
  lemma {:induction false} Drain(p: Sys, k: nat, lag: nat, from: Addr) returns (turns: seq<Turn>, end: Sys)
    requires Ready(p, k) && KeepsAlive(ConnOf(p.client), p.now) && from != NO_ADDR
    ensures Drains(p, turns, end, k, 5 * |ChanOf(p.client, k).sendQueue|)
    decreases |ChanOf(p.client, k).sendQueue|
  {
    if ChanOf(p.client, k).sendQueue == [] {
      DrainedNow(p, k);
      return [], p;
    }
    var round, p1 := Round(p, k, lag, from);
    var rest;
    rest, end := Drain(p1, k, lag, from);
    RoundThenDrain(p, round, p1, rest, end, k);
    turns := round + rest;
  }

  /** Also from a sender that would give up at its next tick, if the receiver would not. */
  lemma ReviveAndDrain(p: Sys, k: nat, lag: nat, from: Addr) returns (turns: seq<Turn>, end: Sys)
    requires Ready(p, k) && from != NO_ADDR
    requires KeepsAlive(ConnOf(p.client), p.now) || KeepsAlive(ConnOf(p.server), p.now)
    ensures Sparse(turns) && |turns| <= 3 + 5 * |ChanOf(p.client, k).sendQueue|
    ensures Plays(p, turns, end) && Drained(p, end, k)
  {
    if KeepsAlive(ConnOf(p.client), p.now) {
      turns, end := Drain(p, k, lag, from);
    } else {
      var a, p1 := Revive(p, k, lag, from);
      var rest;
      rest, end := Drain(p1, k, lag, from);
      PlaysThen(p, a, p1, rest, end);
      turns := a + rest;
    }
  }

  // ---------- From every reachable state ----------

  datatype Direction = ToServer | ToClient

  /** The session with the sender in the client's place. */
  function Facing(s: Sys, d: Direction): Sys {
    if d.ToServer? then s else Mirror(s)
  }

  /** Both ends established over channel `k`, each connection found by its identifier, the counters matched. */
  ghost predicate MatchedSession(s: Sys, k: nat) {
    && k < 256 && BothEstablished(s, k) && SharedChannel(s.client, s.server, k)
    && s.server.agreed
    && FindById(s.server.ctx.conns, s.server.id) == Some(s.server.slot)
    && s.client.ctx.conns[0].peer != NO_ADDR
  }

  lemma ReachableIsLinked(s: Sys, d: Direction, k: nat)
    requires SysInv(s) && Once(s) && MatchedSession(s, k)
    requires var p := Facing(s, d); k < |p.client.books| && p.client.seq0 + |p.client.books[k].sent| < MODULUS
    ensures Linked(Facing(s, d), k)
  {
    var con := s.server.ctx.conns[s.server.slot];
    assert Unused(con) || Seeded(con, s.server.ctx.iss, s.client.ctx.iss);
    assert s.client.slot == 0 && EstablishedMatches(s.client.ctx.conns[0], s.client);
    assert FindById(s.client.ctx.conns, s.client.id) == Some(0);
    assert LinkInv(s.client, s.server, k, s.toServer, s.toClient);
    assert LinkInv(s.server, s.client, k, s.toClient, s.toServer);
  }

  /** After 100 ms everything queued is due. */
  lemma WaitingMakesReady(p: Sys, k: nat)
    requires Linked(p, k) && CtxDated(p.client.ctx, p.now) && SysPinged(p)
    ensures Ready(Later(p, RETRANSMISSION_TIMEOUT), k)
    ensures EnoughRoom(p, k) <==> EnoughRoom(Later(p, RETRANSMISSION_TIMEOUT), k)
  {
    assert ConnDated(ConnOf(p.client), p.now);
    assert Dated(ChanOf(p.client, k).sendQueue, p.now);
    assert Linked(Later(p, RETRANSMISSION_TIMEOUT), k);
  }

  /** In 100 ms, not both ends are about to give up. */
  ghost predicate SomePatience(p: Sys) {
    && NodeInv(p.client) && NodeInv(p.server)
    && (KeepsAlive(ConnOf(p.client), p.now + RETRANSMISSION_TIMEOUT)
        || KeepsAlive(ConnOf(p.server), p.now + RETRANSMISSION_TIMEOUT))
  }

  lemma WaitAndDrain(p: Sys, k: nat, lag: nat, from: Addr) returns (turns: seq<Turn>, end: Sys)
    requires Linked(p, k) && CtxDated(p.client.ctx, p.now) && SysPinged(p) && SomePatience(p) && from != NO_ADDR
    ensures Sparse(turns) && |turns| <= 4 + 5 * |ChanOf(p.client, k).sendQueue|
    ensures Plays(p, turns, end) && Drained(p, end, k)
  {
    var p1 := Later(p, RETRANSMISSION_TIMEOUT);
    WaitingMakesReady(p, k);
    PausePlays(p, RETRANSMISSION_TIMEOUT);
    var rest;
    rest, end := ReviveAndDrain(p1, k, lag, from);
    PlaysThen(p, [Pause(RETRANSMISSION_TIMEOUT)], p1, rest, end);
    turns := [Pause(RETRANSMISSION_TIMEOUT)] + rest;
  }

  lemma PlayFacing(s: Sys, d: Direction, turns: seq<Turn>, end: Sys) returns (turns': seq<Turn>, end': Sys)
    requires Plays(Facing(s, d), turns, end) && Sparse(turns)
    ensures Plays(s, turns', end') && Facing(end', d) == end && |turns'| == |turns| && Sparse(turns')
  {
    turns', end' := turns, end;
    if d.ToClient? {
      MirrorPlays(Mirror(s), turns, end);
      turns', end' := MirrorTurns(turns), Mirror(end);
    }
  }

  lemma FromReachable(start: Sys, run: seq<Step>, d: Direction, k: nat)
    requires Possible(start, run) && Reachable(Final(start, run), start, run) && MatchedSession(Final(start, run), k)
    requires var p := Facing(Final(start, run), d);
             k < |p.client.books| && p.client.seq0 + |p.client.books[k].sent| < MODULUS
    ensures var p := Facing(Final(start, run), d); Linked(p, k) && CtxDated(p.client.ctx, p.now) && SysPinged(p)
  {
    ReachableInv(Final(start, run), start, run);
    RunDated(start, run);
    RunPinged(start, run);
    ReachableIsLinked(Final(start, run), d, k);
  }

  /**
   From every reachable state whose handshake passed its check, in either direction, for a queue of any length
   and packets that take any `lag`: unless both ends are about to give up, waiting 100 ms, perhaps two ticks to
   answer a PING, and then three ticks for each queued message deliver all of them, in order, and empty the
   queue.
   */
  lemma EverythingCanBeDelivered(start: Sys, run: seq<Step>, d: Direction, k: nat, lag: nat, from: Addr)
    returns (turns: seq<Turn>, end: Sys)
    requires Possible(start, run) && Reachable(Final(start, run), start, run) && MatchedSession(Final(start, run), k)
    requires var p := Facing(Final(start, run), d);
             k < |p.client.books| && p.client.seq0 + |p.client.books[k].sent| < MODULUS && SomePatience(p)
    requires from != NO_ADDR
    ensures Plays(Final(start, run), turns, end)
    ensures var p := Facing(Final(start, run), d);
            && Sparse(turns) && Linked(p, k) && |turns| <= 4 + 5 * |ChanOf(p.client, k).sendQueue|
            && Drained(p, Facing(end, d), k)
  {
    var p := Facing(Final(start, run), d);
    FromReachable(start, run, d, k);
    turns, end := WaitAndDrain(p, k, lag, from);
    turns, end := PlayFacing(Final(start, run), d, turns, end);
  }
}
