/** Packets, identifiers and the constants of the protocol. */
module Protocol {

  type U8 = x: int | 0 <= x < 0x100
  type U16 = x: int | 0 <= x < 0x1_0000
  type U32 = x: int | 0 <= x < 0x1_0000_0000
  type U64 = x: int | 0 <= x < 0x1_0000_0000_0000_0000

  type Payload = seq<U8>

  /** An IPv4 address and port. */
  datatype Addr = Addr(ip: U32, port: U16)

  const NO_ADDR := Addr(0, 0)

  datatype ConnId = ConnId(generation: U16, id: U16)

  /** The identifier of a client that has not been given one. */
  const UNASSIGNED := ConnId(0, 0xFFFF)

  const SYN: U8 := 0x01
  const ACK: U8 := 0x02
  const PING: U8 := 0x04
  const PONG: U8 := 0x08
  const DATA: U8 := 0x10
  const FIN: U8 := 0x40
  const RST: U8 := 0x80
  const SYN_ACK: U8 := 0x03
  const DATA_ACK: U8 := 0x12
  const FIN_ACK: U8 := 0x42

  const MTU := 1024
  const MAX_RETRY := 5
  const RETRY_TIMEOUT := 100
  const RETRANSMISSION_TIMEOUT := 100
  const KEEPALIVE_RETRY := 8
  const KEEPALIVE_TIME := 200
  const RECV_LIMIT_PER_TICK := 16
  const QUEUE_CAPACITY := 32

  /** The fields of a packet that the protocol reads; the framing fields are in module Framing. */
  datatype Packet = Packet(ctrl: U8, channel: U8, connId: ConnId, seqNo: U32, ackNo: U32, payload: Payload)

  /** A packet given to the socket, with its destination. */
  datatype Datagram = Datagram(to: Addr, packet: Packet)

  /** `x++` on an unsigned 32-bit counter. */
  function Next32(x: U32): U32 {
    if x == 0xFFFF_FFFF then 0 else x + 1
  }

  /** A timestamp of zero was never started; any other expires when the clock reaches it. */
  predicate Expired(timestamp: nat, now: nat) {
    timestamp != 0 && now >= timestamp
  }
}
