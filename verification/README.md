# Gilberta: a verified model

Gilberta is a small library for reliable real-time messages over UDP. A context owns a fixed number of
connections; a connection, once established, owns an array of channels, each with a send queue, a receive
queue and two counters. Everything happens inside a few calls: `glb_connect`, `glb_close`, `glb_send`,
`glb_pollevent`, `glb_popdata`, and `glb_tick`, which reads packets, runs timers and transmits.

This project models that behaviour in Dafny and proves what it is for.

## How it is built

| module | what it holds |
|---|---|
| `Protocol`, `Wrappers`, `Runs` | constants, packets, optional values, runs of a step relation |
| `ShiftRegister`, `Crc16`, `Crc16Errors` | the checksum: its reference definition, the table, the loop, what it detects |
| `Framing` | packets as bytes, sending and reading one datagram |
| `RingQueue` | the byte-pool queue, in 32-bit arithmetic |
| `Packages` | a channel as two such queues of encoded packages, edited through pointers into their pools |
| `Timer` | timestamps |
| `Endpoint` | one context as a value and every operation on it as a function |
| `Context` | the same operations as methods on classes whose fields change in place, each proved to compute its function in `Endpoint` |
| `Allocation` | the creation of a channel array with its unwinding; exactly which steps lose memory |
| `Node`, `NodeSteps`, `Ticks` | one end over time, with a record of what its application put in and got out; a tick as a run of its actions |
| `Slots`, `SendQueues`, `Accounting` | one channel of one slot among many, established any number of times: its moves, its send queue, events against queues, losses, stalls, migration |
| `Lifecycle`, `Notices` | every change of state with its cause; what the application is told of every action |
| `Handshakes` | opening, refusing and closing between any two contexts; PING and PONG |
| `Unreliable` | channels that nobody acknowledges |
| `ClientIds`, `Backoff` | identifiers; how long the library tries, from the call or packet that begins it |
| `Session`, `Turns` | a client, a server and a network that loses, duplicates, delays and reorders; the invariant of every run; schedules of whole ticks |
| `EndToEnd` | the safety theorems about whole runs |
| `Progress`, `Rounds`, `Delivery` | what runs keep of timers and PINGs; a round of ticks that moves one message; whole queues |
| `SkippedMessage`, `LeakingRun` | two concrete runs |

The network of `Session` is the set of all packets ever sent in each direction. A delivery picks any of them,
leaves it there, and may claim any source address, so loss, duplication, delay, reordering and rebinding need no
case of their own. The server has any number of slots. The theorems of `EndToEnd` and `Delivery` speak of runs in
which each end becomes established at most once and the 32-bit counters do not wrap, because the library compares
counters with `<` and `>` and cannot tell an earlier connection's packets from its own. The theorems of `Slots`,
`SendQueues`, `Accounting`, `Allocation`, `Backoff`, `Lifecycle`, `Notices`, `Handshakes` and, but for one that is about
two ends, `Unreliable` need neither: they are about every slot, established any number of times.

A receive queue that is full loses a packet that is nevertheless counted and acknowledged, and the handshake check
of the counters only writes to the log. Both are modelled as they are. `EndToEnd.NothingLostIffNeverFull`,
`EndToEnd.HandshakeAgreesIffChecked` and `EndToEnd.UncheckedAckSkips` say exactly when delivery is whole, and
`SkippedMessage.AcknowledgedAndLost` is a run in which a message is acknowledged and never accepted.

The header of the library documents a connection's channels as absent once it is closed. The code keeps them after
a reset in FIN_SENT; the model follows the code, and `Allocation.ActTidyIff` names every step of that kind.

## Model

| member | source | states |
|---|---|---|
| EndToEnd.ClientToServer | src/libgilberta/gilberta.c:381-537 | In every run whose accepted ACK passed the check, what the server accepted on a reliable channel is a prefix of what the client queued, in order and each once; what its application popped is an in-order subsequence, and a prefix if the receive queue was never full on arrival |
| EndToEnd.ServerToClient | src/libgilberta/gilberta.c:277-327 | The same from the server to the client, where the handshake always matches |
| EndToEnd.UncheckedAckSkips | src/libgilberta/gilberta.c:249-260 | If the server took an ACK, some step of the run sent it; on every channel reliable at both ends exactly the first d messages are skipped, d being how many the client had queued on its first channel right after that step, and what follows them is delivered; d is zero exactly when the check passes |
| EndToEnd.HandshakeAgreesIffChecked | src/libgilberta/gilberta.c:236-273 | When the server becomes established, whatever has become of the client, both ends hold one identifier and the client expects the server's first number; the server expects the client's exactly when the ACK passes the check that is only logged |
| EndToEnd.ChannelsAgreeIffChecked | src/libgilberta/gilberta.c:249-260 | If the client is still established then, the counters of any channel agree in both directions exactly when the ACK carries the number of the oldest message queued on it, and of a reliable channel exactly when the check passes |
| EndToEnd.ClientWindow | src/libgilberta/gilberta.c:422-483 | While both ends are established and the handshake passed its check, the server's counter for a reliable channel is the client's oldest unacknowledged number or the next |
| EndToEnd.ServerWindow | src/libgilberta/gilberta.c:526-533 | The same for the other direction, with no condition on the check |
| EndToEnd.ServerAhead | src/libgilberta/gilberta.c:422-483 | While the server is established on an ACK that passed its check, whatever has become of the client, no DATA ever sent to it on a reliable channel is ahead of its counter and every DATA\|ACK it ever sent is behind it |
| EndToEnd.ClientAhead | src/libgilberta/gilberta.c:422-483 | The same at the client, whatever has become of the server, with no condition on the check |
| EndToEnd.ServerNeverDesyncs | src/libgilberta/gilberta.c:439-449 | So the server never takes the branch that counts a packet from the future, for any DATA ever sent to it on such a channel |
| EndToEnd.ClientNeverDesyncs | src/libgilberta/gilberta.c:439-449 | Nor does the established client |
| SendQueues.SendQueueConsecutive | src/libgilberta/gilberta.c:136-155 | In every run of a context, with any number of slots established any number of times, the send queue of every channel of every established slot holds the payloads queued last, in order, as DATA of that channel and connection, under consecutive numbers modulo 2^32 ending just before the next one |
| Slots.ActStays | src/libgilberta/gilberta.c:174-846 | While a slot stays established, one action moves each of its channels in one of six ways, each with its own cause: nothing, one append, one timer pass, one acknowledged head, one accepted packet, one pop; a packet is accepted exactly when it is DATA for the channel that finds the slot and is the one due on a reliable channel, from anywhere, or any at all on an unreliable one, from the peer |
| Slots.ActOpens | src/libgilberta/gilberta.c:236-327 | A slot becomes established only by an ACK or a SYN\|ACK, with empty queues |
| Unreliable.TakesWhatArrives | src/libgilberta/gilberta.c:398-489 | From the step that establishes a slot of any context, an unreliable channel accepts exactly the payloads that reach it from its peer, in the order of delivery, whatever their numbers; popped followed by waiting is all of that exactly when the receive queue was never full |
| Unreliable.SentOnceInOrder | src/libgilberta/gilberta.c:698-713 | In every run of a context, on every unreliable channel of every established slot, what was sent to the peer followed by what is queued is what was queued since the slot was established: each message goes out once, in order |
| Unreliable.TickCarries | src/libgilberta/gilberta.c:698-713 | The timers of an established slot send of each channel its head, to the peer, exactly if it is due |
| Unreliable.NothingInvented | src/libgilberta/gilberta.c:381-489 | In every run of a session, on every channel of either kind and with no condition on counters, each payload an end accepted was queued by the other end on that channel |
| Unreliable.AcceptanceAnswers | src/libgilberta/gilberta.c:398-489 | Acceptance settles the peer's address, and is answered there with one DATA\|ACK on a reliable channel and not at all on an unreliable one |
| Unreliable.RefusalAnswers | src/libgilberta/gilberta.c:398-450 | Any other DATA for a channel changes nothing but, from the peer on a reliable channel, the count of packets from the future, and is answered only if it is old |
| Lifecycle.StateDiagram | src/libgilberta/gilberta.c:77-805 | In every action of any context, each slot changes its state exactly in the cases of a diagram: into each of the five states, if and only if its cause occurs |
| Notices.EverythingIsReported | src/libgilberta/gilberta.c:174-798 | In every action of any context, the events added are exactly, slot by slot and as far as there is room: CONNECT when a slot is established or takes a SYN\|ACK before; DISCONNECT by timeout when the timers close it, except from SYN_RCVD; by peer when a FIN or FIN\|ACK closes it; by reset for every RST that finds it; MIGRATION when its address changes while established, before the RECEIVE of that packet; RECEIVE for every packet accepted; STALLED for each sixth transmission of a head |
| Notices.LossesAreStalls | src/libgilberta/gilberta.c:726-742 | In every run of a context the loss count of every slot is the number of STALLED reports since it last connected or took a SYN |
| Handshakes.OpeningHandshake | src/libgilberta/gilberta.c:77-327 | Between any client context and any server context with a free slot and a fresh identifier: four ticks, each finding what the one before it sent, open both ends under one identifier, at each other's addresses, with the counters of every channel crossed, and both applications are told |
| Handshakes.AckIsRepeated | src/libgilberta/gilberta.c:288-324 | When the last ACK was lost, the repeated SYN\|ACK changes nothing at the established client, is not reported, and is answered again |
| Handshakes.ConnectRefused | src/libgilberta/gilberta.c:200-210 | A connect to a server with no slot for its address and none closed, from the call to the report: one SYN, one RST to its address, and the client closed and told of a reset |
| Handshakes.FullServerRefuses | src/libgilberta/gilberta.c:200-210 | Such a server answers any SYN with exactly one RST and is unchanged |
| Handshakes.ClosingHandshake | src/libgilberta/gilberta.c:106-378 | Between any two ends of a connection: after a close and a tick a FIN is sent; the tick that finds it closes that end without channels, reports it and answers; the tick that finds the answer closes the closer, gives its blocks back and reports the same; copies of either packet change and report nothing, and a repeated FIN is answered again |
| Handshakes.FinIsAnswered | src/libgilberta/gilberta.c:330-355 | A FIN closes whatever open connection it finds and is answered with its identifier to its peer, open or closed |
| Handshakes.FinAckCloses | src/libgilberta/gilberta.c:358-378 | A FIN\|ACK closes whatever open connection it finds, sends nothing, and does nothing to a closed one |
| Handshakes.ClockIsEchoed | src/libgilberta/gilberta.c:540-559 | The PONG carries back the 64-bit clock of the PING it answers, under its identifier |
| Handshakes.AnswerRestartsKeepalive | src/libgilberta/gilberta.c:540-587 | A PING is answered on its channel whatever is known of it, and the answer restarts the keepalive of the slot it finds, in any state, and nothing else |
| EndToEnd.NothingLostIffNeverFull | src/libgilberta/gilberta.c:464-473 | In every run, at either end: accepted equals popped followed by waiting exactly when the receive queue had room at every acceptance; and then, on a channel that began matched, popped followed by waiting is the beginning of what the other end sent |
| Accounting.KeptIffNeverFull | src/libgilberta/gilberta.c:464-473 | The same equivalence at each slot of any context from the step that establishes it, whatever the other slots and the network do |
| Accounting.FullQueueLoses | src/libgilberta/gilberta.c:464-489 | A DATA packet that is due and finds 32 packets waiting is answered with DATA\|ACK and counted, the counter advances, and the queue is unchanged: the payload is gone |
| Accounting.FullQueueIsRecorded | src/libgilberta/gilberta.c:464-473 | The record of the end then holds the payload as accepted and is marked as not lossless |
| SkippedMessage.AcknowledgedAndLost | src/libgilberta/gilberta.c:319-324 | A concrete run: a re-sent handshake ACK carries the advanced counter, and the message queued before it leaves the send queue acknowledged and never accepted |
| Session.RunKeepsInv | src/libgilberta/gilberta.c:160-805 | The invariant of both directions of every channel and of the handshake holds after every run in which neither end was established twice |
| Session.SenderKeepsLink | src/libgilberta/gilberta.c:526-533 | Whatever acknowledgements the network delivers, a sender's step keeps its queue within one of the receiver, and it drops only what was accepted or skipped |
| Session.ReceiverKeepsLink | src/libgilberta/gilberta.c:422-483 | Whatever DATA the network delivers, a receiver's step accepts only the next payload the sender queued |
| Session.AcceptedIsNext | src/libgilberta/gilberta.c:422-473 | The packet a reliable channel accepts carries the payload at the head of the sender's queue |
| Session.ServerEstablishes | src/libgilberta/gilberta.c:236-273 | The server becomes established only by an ACK the client sent, and takes its first counters from it |
| Session.ClientEstablishes | src/libgilberta/gilberta.c:277-327 | The client becomes established only by a SYN\|ACK, with both first counters agreed |
| Node.ActKeepsInv | src/libgilberta/gilberta.c:77-846 | While an end has been established at most once, every call and every packet from anyone keeps its channels, its record and what it delivered consistent |
| Session.DequeuedWasAccepted | src/libgilberta/gilberta.c:526-533 | A reliable send queue loses its head only after the head was accepted, or skipped by the handshake |
| NodeSteps.ActBookStep | src/libgilberta/gilberta.c:464-533 | One action queues one payload, drops one acknowledged head, accepts one expected payload, or changes nothing |
| Ticks.TickIsRun | src/libgilberta/gilberta.c:160-805 | Every tick is a run of at most sixteen receptions and then the timers, which ends in the tick's context and sends the tick's datagrams in order; so what holds after every run of actions holds after every tick |
| Turns.TurnIsTick | src/libgilberta/gilberta.c:160-805 | Conversely, in a session the receptions of at most sixteen delivered packets followed by the timers do to the end and to the network exactly what one tick does |
| NodeSteps.ActSendStep | src/libgilberta/gilberta.c:627-805 | Every DATA packet is the head of a send queue, every DATA\|ACK echoes a packet accepted now or before, every handshake packet carries the connection's own counters |
| Delivery.EverythingCanBeDelivered | src/libgilberta/gilberta.c:160-805 | From every reachable matched state, in either direction, for a queue of any length and packets that take any fixed time: unless both ends are about to give up, a schedule of at most 4 + 5n turns of whole ticks, each taking at most three packets, delivers all n queued messages in order and empties the queue; with room at the receiver all of them have been popped or wait |
| Delivery.Drain | src/libgilberta/gilberta.c:464-533 | From a sender that will not give up at its next tick, rounds of three ticks and two pauses, one for each queued message, empty the queue, all of them accepted in order |
| Rounds.Round | src/libgilberta/gilberta.c:698-797 | One round of whole ticks, sender, receiver, sender, with the PINGs either end has unanswered answered on the way, removes exactly the head, whether its packet was new or had been accepted before, and leaves both ends open and patient and the rest of the queue due |
| Rounds.Revive | src/libgilberta/gilberta.c:540-587 | A sender that would give up at its next tick, and whose receiver would not, is saved: the receiver answers the PING still on the network, and the PONG keeps the sender open and patient, its queue as it was |
| Progress.RunPinged | src/libgilberta/gilberta.c:762-797 | In every run, an end whose keepalive counter is not zero has a PING on the network that carries its identifier |
| Progress.ReceiverMustHope | src/libgilberta/gilberta.c:762-797 | An end that is out of patience is not saved by data: the tick that takes a DATA packet, and no PONG, closes it |
| Progress.RunDated | src/libgilberta/gilberta.c:710-726 | In every run only the head has ever been sent: what is behind it is due, and the head is due within 100 ms |
| Backoff.GivesUp | src/libgilberta/gilberta.c:631-695 | In every run of a whole context, ticks at most a gap apart whose packets are all for others and any calls between them except close and connect on the slot: unanswered, SYN_SENT, SYN_RCVD and FIN_SENT make exactly five attempts, all alike, and close between 1500 ms and 1500 ms + 5 gaps after the first; the timeout is reported once, except from SYN_RCVD, where nothing is |
| Backoff.ConnectGivesUp | src/libgilberta/gilberta.c:77-104 | So from any context in which the call is allowed, whatever became of slot 0 before: an unanswered connect sends exactly five SYNs, with the unassigned identifier and the first counter, to the configured address |
| Backoff.CloseGivesUp | src/libgilberta/gilberta.c:106-118 | And an unanswered close exactly five FINs |
| Backoff.AcceptGivesUp | src/libgilberta/gilberta.c:200-232 | And a SYN for a slot that is not established, known or new and however many attempts it has behind it, exactly five SYN\|ACKs to the SYN's address, under the identifier and counters the slot has or is given |
| Backoff.SilenceCloses | src/libgilberta/gilberta.c:762-797 | In the same runs, whatever the application sends and pops meanwhile, an established connection that hears nothing sends exactly nine PINGs and closes between 9200 ms and 9200 ms + 10 gaps after its keepalive started, with one report of a timeout after nothing but stalls |
| Backoff.SilenceAfterOpening | src/libgilberta/gilberta.c:236-327 | So from the packet that establishes it, at either end |
| Backoff.SilenceAfterPong | src/libgilberta/gilberta.c:562-587 | And from the last PONG, however many PINGs went before it |
| Backoff.TickOfContext | src/libgilberta/gilberta.c:625-798 | A tick whose packets are all for other slots does to a connection exactly what its own timers do, and sends the answers to those packets and then, slot by slot, what the timers send |
| Backoff.ElsewhereTellsNothing | src/libgilberta/gilberta.c:189-613 | A packet that is for others tells the owner of the slot nothing |
| Backoff.RunQueuesHoldData | src/libgilberta/gilberta.c:136-155 | In every run of a context the send queues of every established slot hold nothing but DATA |
| Timer.StartedCountsDown | src/libgilberta/timer.c:22-37 | A started timer counts down to zero and expires exactly when it gets there |
| Timer.NothingLeftIff | src/libgilberta/timer.c:32-37 | For any timestamp, nothing left means expired, except before a start and at multiples of 2^32 ms |
| Accounting.ReceiveLicensesPop | src/libgilberta/gilberta.c:464-489 | From the step that establishes a slot, in any context and for as long as neither queue fills, RECEIVE events pending or polled and unused equal the payloads waiting, so each polled one lets `glb_popdata` return the next accepted payload |
| Accounting.StartBalanced | src/libgilberta/gilberta.c:255-273 | The step that establishes a slot starts that balance, with nothing pending, polled or waiting, if no RECEIVE of an earlier connection is still pending |
| Accounting.StallsAreCounted | src/libgilberta/gilberta.c:715-742 | In every run of a context, on every reliable channel of every slot, the datagrams that carried the present head are six times its STALLED reports plus its counter, which rests at 0 to 5 |
| Accounting.MigrationAccepts | src/libgilberta/gilberta.c:398-416 | The address of an established connection changes only with a packet accepted on a reliable channel, whose counter advances by one |
| Allocation.CreateConChannels | src/libgilberta/context.c:120-145 | Succeeds exactly when every request is granted, with 1 + 2 * channels new distinct blocks; otherwise every block it took is given back |
| Allocation.FreeConChannels | src/libgilberta/context.c:148-159 | Gives back exactly the blocks of the array, and nothing for a missing one |
| Allocation.ChannelsAreThere | src/libgilberta/gilberta.c:255-260 | After every run, a connection in ESTABLISHED or FIN_SENT has its complete channel array, and no queue is over capacity |
| Allocation.ActTidyIff | src/libgilberta/gilberta.c:599-604 | From a balanced state a step leaves blocks and connections balanced exactly when it is not a reset, SYN or SYN\|ACK of a closing connection, an unsent handshake ACK, or a connect over live channels |
| Allocation.ReceiveTidyIff | src/libgilberta/gilberta.c:288-324 | The same for one received packet |
| Allocation.NothingLeaks | src/libgilberta/gilberta.c:160-805 | Over every run without such a step, live blocks are 1 + 2 * channels for each connection in ESTABLISHED or FIN_SENT |
| Allocation.LeakIsReal | src/libgilberta/gilberta.c:599-604 | The first such step of any run always upsets the balance |
| LeakingRun.ThreeBlocksAreLost | src/libgilberta/gilberta.c:599-604 | A concrete run: a reset while a FIN is unanswered, and a new connection after it; destroying the context then leaves three blocks |
| Allocation.DestroyReturnsAll | src/libgilberta/context.c:246-261 | After a run without such a step, destroying the context frees every block |
| ClientIds.NthClosedForm | src/libgilberta/context.c:263-271 | The n-th identifier is n mod 65535, never 0xFFFF, with generation 1 exactly at 0xFFFE |
| ClientIds.SameIdIff | src/libgilberta/context.c:263-271 | Two identifiers are equal exactly when their positions agree mod 65535 |
| ClientIds.DistinctWithinPeriod | src/libgilberta/context.c:263-271 | Any 65535 consecutive identifiers are distinct and the next repeats the first |
| ClientIds.LiveConnectionIsFound | src/libgilberta/context.c:263-297 | In every run of a server that hands out fewer than 65535 identifiers, whatever packets it is sent, each connection that is not closed is the one its identifier finds |
| Crc16.TableIsBitSerial | src/libgilberta/glbio.c:21-54 | Each of the 256 constants is eight bit-serial shifts of its index |
| Crc16.GenerateTable | src/test/main.cpp:50-58 | The generator computes eight bit-serial shifts of every index |
| Crc16.GeneratedIsTable | src/test/main.cpp:50-58 | Which at every index is the constant of the library's table |
| Crc16.ShiftByte | src/test/main.cpp:52-57 | Its inner loop is eight shifts of the register |
| Crc16.ByteAtOnce | src/libgilberta/glbio.c:56-62 | Feeding a byte bit by bit is adding it and shifting eight times |
| Crc16.Crc16ModbusFast | src/libgilberta/glbio.c:56-62 | The table-driven loop computes the bit-serial CRC-16/MODBUS of every byte sequence |
| Crc16.EmptyPayload | src/libgilberta/glbio.c:56-62 | The checksum of no data is 0xFFFF |
| Crc16Errors.TwoBitErrorUndetectedIff | src/libgilberta/glbio.c:56-62 | Two flipped bits go unnoticed exactly when they are a multiple of 32767 apart |
| Crc16Errors.TwoBitErrorIsDetected | src/libgilberta/glbio.c:93-108 | So every double-bit error in at most 1024 bytes changes the checksum |
| Crc16Errors.BurstIsDetected | src/libgilberta/glbio.c:56-62 | Payloads that differ only within sixteen consecutive bits have different checksums |
| Crc16Errors.OddErrorIsDetected | src/libgilberta/glbio.c:56-62 | Payloads that differ in an odd number of bits have different checksums |
| Crc16Errors.OrderOfTheGenerator | src/test/main.cpp:53-56 | The register returns after n shifts exactly when n is a multiple of 32767 |
| Framing.Send | src/libgilberta/glbio.c:64-74 | Stamps the checksum into the header and gives the socket header and payload, nothing else of the package |
| Framing.ReadPackage | src/libgilberta/glbio.c:76-115 | Accepts exactly the good frames, whatever the buffer held before, and then holds their header and payload |
| Framing.AcceptedIffFrame | src/libgilberta/glbio.c:93-108 | A datagram is accepted exactly when it is a frame with a good header, perhaps followed by other bytes |
| Framing.DecodeEncode | src/libgilberta/glbio.h:177-193 | Every header survives its 24-byte little-endian encoding |
| Framing.EncodeDecode | src/libgilberta/glbio.h:177-193 | Every 24 bytes encode exactly one header |
| Framing.PacketRoundTrip | src/libgilberta/glbio.c:64-115 | The receiver gets the packet the sender framed |
| Framing.DamagedAcceptedIff | src/libgilberta/glbio.c:106-108 | A frame with a damaged payload is accepted exactly when the checksums collide |
| Framing.TwoFlipsRejected | src/libgilberta/glbio.c:106-108 | Any two flipped payload bits: rejected |
| Framing.BurstRejected | src/libgilberta/glbio.c:106-108 | Any change within sixteen consecutive payload bits: rejected |
| Framing.OddFlipsRejected | src/libgilberta/glbio.c:106-108 | Any odd number of flipped payload bits: rejected |
| RingQueue.OffsetsExactIff | src/libgilberta/queue.c:55-56 | The 32-bit index arithmetic is exact for every head and length at exactly the sizes the queue is proved for |
| RingQueue.Init | src/libgilberta/queue.c:19-40 | No queue for a zero size or without memory; otherwise head and length zero over a pool of capacity times element size bytes, which at the exact sizes is the empty queue |
| RingQueue.Queue.Push | src/libgilberta/queue.c:47-66 | Appends a copy, or zeros, unless full |
| RingQueue.Queue.Pop | src/libgilberta/queue.c:68-85 | Removes and copies out the oldest element, unless empty |
| RingQueue.Queue.Peek | src/libgilberta/queue.c:102-114 | The address of the oldest element |
| RingQueue.Queue.WriteThrough | src/libgilberta/gilberta.c:706-724 | Editing through a peeked pointer changes that part of the head element and nothing else |
| RingQueue.PushWhilePeeked | src/libgilberta/queue.c:47-66 | A push leaves a peeked pointer live and the bytes behind it unchanged |
| RingQueue.Replay | src/libgilberta/queue.c:47-114 | Over every history of pushes, pops and edits the ring is a bounded sequence |
| RingQueue.FirstInFirstOut | src/libgilberta/queue.c:47-85 | Nothing is lost, invented, reordered or over capacity |
| Packages.EntryOfPackage | src/libgilberta/gilberta.c:49-62 | A package made for a packet, over whatever the memory behind its payload held, stands for that packet, its due time and no transmission |
| Packages.StampKeepsEntry | src/libgilberta/glbio.c:64-66 | Stamping the checksum into a package in place changes nothing of what it stands for |
| Packages.StampMakesFrame | src/libgilberta/glbio.c:64-74 | And makes the front of the package the frame of its header and payload |
| Packages.EditTimestamp | src/libgilberta/gilberta.c:724 | Eight bytes overwritten at the timestamp change the due time and nothing else |
| Packages.EditRetransmits | src/libgilberta/gilberta.c:726-735 | Eight bytes overwritten at the counter change the counter and nothing else |
| Packages.TransmitPackage | src/libgilberta/gilberta.c:698-742 | Over a ring of packages, peeking, stamping, sending and editing the head through the pointer, or popping it, is `Endpoint.TransmitHead`; the datagram is read as the head packet |
| Packages.Channel.Send | src/libgilberta/gilberta.c:136-155 | Packing data into a ring of packages is the append move of a channel, or nothing when the ring is full |
| Packages.Channel.TakeAck | src/libgilberta/gilberta.c:526-533 | Comparing the number read through the pointer and popping is the acknowledged-head move, or nothing |
| Packages.Channel.Transmit | src/libgilberta/gilberta.c:698-742 | The timers over the ring are the timer move, and what goes to the socket is read as the packet of that move whatever follows it |
| Packages.Channel.Accept | src/libgilberta/gilberta.c:464-475 | Pushing a received package is the acceptance move, also when the ring is full |
| Packages.Channel.PopData | src/libgilberta/gilberta.c:827-843 | Peeking the length and popping is the pop move and hands out the payload, or nothing changes |
| Context.Context.Create | src/libgilberta/context.c:161-244 | No context without channels, memory or a socket; otherwise one slot for a client and the configured number for a server, all zeroed, with 1024 events by default |
| Context.Context.constructor | src/libgilberta/context.c:186-217 | Every slot zeroed, identifiers starting at 1; usable exactly when there is a slot |
| Context.Context.Destroy | src/libgilberta/context.c:246-254 | Frees the channels of every connection that has some |
| Context.Context.Receive | src/libgilberta/gilberta.c:189-613 | One packet is handled as `Endpoint.Receive` says: by kind, by connection, touching no other connection |
| Context.Context.ReceiveLoop | src/libgilberta/gilberta.c:174-187 | Terminates having consumed a prefix of the inbox: up to its 16th valid packet or all of it, garbage not counted, and handled its valid packets in order |
| Context.Context.RunTimers | src/libgilberta/gilberta.c:625-798 | The timers of every connection, in slot order |
| Context.Context.Tick | src/libgilberta/gilberta.c:160-805 | The receive loop, then the timers |
| Context.Context.Connect | src/libgilberta/gilberta.c:77-104 | Slot 0 starts over, even when the address does not parse |
| Context.Context.Close | src/libgilberta/gilberta.c:106-118 | Only an established connection starts to close |
| Context.Context.Send | src/libgilberta/gilberta.c:120-158 | Every error in the library's order; the counter advances only when the packet was queued |
| Context.Context.PollEvent | src/libgilberta/gilberta.c:807-815 | The oldest event |
| Context.Context.PopData | src/libgilberta/gilberta.c:817-846 | The oldest payload, if the buffer holds it; otherwise nothing is removed |
| Context.Context.FindConn | src/libgilberta/context.c:289-297 | The first slot with the identifier |
| Context.Context.FindConnByAddr | src/libgilberta/context.c:299-308 | The first slot with the address |
| Context.Context.FindEmptyConn | src/libgilberta/context.c:273-287 | The first closed slot, its fields cleared and its channels forgotten |
| Context.Context.GenerateClientId | src/libgilberta/context.c:263-271 | The next identifier, bumping its generation on overflow |
| Context.Context.OnSyn | src/libgilberta/gilberta.c:190-233 | A known address keeps its slot, a new one takes a closed slot, and a full server answers RST |
| Context.Connection.OnAck | src/libgilberta/gilberta.c:236-274 | SYN_RCVD becomes established with fresh channels seeded from the packet |
| Context.Connection.OnSynAck | src/libgilberta/gilberta.c:277-327 | Channels are made before the reply, which decides the state |
| Context.Connection.OnFin | src/libgilberta/gilberta.c:330-355 | Answered first; closed only if the answer went out |
| Context.Connection.OnFinAck | src/libgilberta/gilberta.c:358-378 | Closes once |
| Context.Connection.OnData | src/libgilberta/gilberta.c:381-492 | Migration, re-acknowledgement, desync and acceptance, in the library's order |
| Context.Connection.OnDataAck | src/libgilberta/gilberta.c:496-537 | Removes the head only on an exact match |
| Context.Connection.OnPong | src/libgilberta/gilberta.c:562-587 | Restarts the keepalive in any state |
| Context.Connection.OnRst | src/libgilberta/gilberta.c:590-613 | Closes in any state, freeing channels only when established |
| Context.Connection.Transmit | src/libgilberta/gilberta.c:698-759 | Only due heads are sent; an unreliable one is dropped, a reliable one is edited in place |
| Context.Connection.RunKeepalive | src/libgilberta/gilberta.c:762-797 | Nine PINGs, then closed |
| Context.Connection.WriteAck | src/libgilberta/context.c:322-333 | Every channel gets the connection's counter and the peer's |
| Context.Connection.CreateChannels | src/libgilberta/context.c:120-145 | An array of empty queues, one block and two a channel |
| Endpoint.ReceiveOk | src/libgilberta/gilberta.c:174-615 | After any packet, a connection in ESTABLISHED or FIN_SENT has all its channels |
| Endpoint.TimersFromOk | src/libgilberta/gilberta.c:625-798 | So it has after the timers |
| Endpoint.CallsSucceedIff | src/libgilberta/gilberta.c:106-158 | Exactly when sending, closing and popping succeed; otherwise nothing has changed |
| Endpoint.FailuresInOrder | src/libgilberta/gilberta.c:106-158 | And which error it is otherwise, the first that applies |
| Endpoint.ConnectSucceedsIff | src/libgilberta/gilberta.c:77-104 | A connect succeeds exactly when the address parses; otherwise the slot goes on but has lost its identifier, its counters and its peer's port |
| Accounting.PolledInOrder | src/libgilberta/gilberta.c:807-815 | In every run, the events polled followed by those pending only grow at the end: events are polled in the order they were pushed, none twice and none skipped |
| Endpoint.Consumed | src/libgilberta/gilberta.c:174-187 | How much of an inbox a tick reads |

## Left out

- Context.Connection.CreateChannels: memory never runs out here; `Allocation.CreateConChannels` models the failure and its unwinding, and the handlers that ignore its result are not modelled with a missing array.
- ClientIds.LiveConnectionIsFound: for a server that never calls connect.
- Node.ActKeepsInv: for an end established at most once, as the end-to-end record is of one connection; what every slot keeps without that is in `Slots` and `SendQueues`.
- Delivery.EverythingCanBeDelivered: the schedule is exhibited, with one lag for all packets; a network that loses packets for ever delivers nothing. When both ends are out of patience nothing is claimed.
- Allocation.NothingLeaks: counts blocks; which addresses they have is in `Allocation.CreateConChannels` only.
- EndToEnd.ClientToServer: counters that wrap, packets of an earlier connection and a second establishment are excluded by hypothesis, as the code does not handle them.
- The queues of a `Context.Connection` are bounded sequences of packets; a channel over byte-pool rings is `Packages.Channel`, whose every operation is proved to be a move of such a channel, and the event queue is a sequence only.
- The clock is read once per packet and once per run of the timers; the library reads it at each use.
- Sockets: a send succeeds or fails as a parameter says where the library looks at the result, and is only recorded where it does not; a persistent socket error, on which the receive loop would not end, is not modelled.
- Null arguments, the context's error field, logging, `glb_getconinfo`, `glb_getstring`, and what `glb_destroy` frees besides channels.
- The smoothed round-trip time of PONG, which nothing reads.
- `glb_popdata` on a connection without channels, which the library does not check for.
- `glb_connect` on an established connection.
- The loss and desync statistics are unbounded numbers.
- Unreliable.SentOnceInOrder: for runs in which no DATA\|ACK names the channel; no end sends one for an unreliable channel, but a packet from elsewhere that does so removes the head unsent.
- Notices.EverythingIsReported: an event names its slot; the library's events hold a pointer to the connection.
- What a server with zero slots does after it is created, and a SYN from address 0.0.0.0 port 0, which every unused slot matches.
- The code disabled by `#if 0`, channel priority, the `wnd` field and the send limit, which are unused.
- Windows sockets and timers, big-endian hosts.
