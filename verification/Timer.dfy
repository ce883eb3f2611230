/**
 Timers over a clock that never reads zero. A timestamp is 64 bits wide; what is left of a timer is
 reported in 32.
 */
module Timer {
  import opened Protocol

  function Started(now: U64, interval: U32): U64 {
    (now + interval) % 0x1_0000_0000_0000_0000
  }

  function Remaining(timestamp: U64, now: U64): U32 {
    if timestamp == 0 || now >= timestamp then 0 else (timestamp - now) % 0x1_0000_0000
  }

  /** A started timer counts down to zero and expires exactly when it gets there. */
  lemma StartedCountsDown(now: U64, interval: U32, later: U64)
    requires 1 <= now <= later && now + interval < 0x1_0000_0000_0000_0000
    ensures var timestamp := Started(now, interval);
            && Remaining(timestamp, later) == (if later - now >= interval then 0 else interval - (later - now))
            && (Expired(timestamp, later) <==> Remaining(timestamp, later) == 0)
  {
    SmallRemainder(now + interval);
  }

  lemma SmallRemainder(x: U64)
    ensures x % 0x1_0000_0000_0000_0000 == x
  {
  }

  /** For any timestamp, nothing left means expired, except at a multiple of 2^32 ms before it, or before a start. */
  lemma NothingLeftIff(timestamp: U64, now: U64)
    ensures Remaining(timestamp, now) == 0
       <==> timestamp == 0 || Expired(timestamp, now) || (timestamp - now) % 0x1_0000_0000 == 0
  {
  }
}
