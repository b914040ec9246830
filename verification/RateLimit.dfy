/** The per-peer token bucket in front of the handshake, and its eviction. */
module RateLimit {
  import opened Base

  type Peer = nat

  /** `Duration::MAX` in nanoseconds. */
  const DURATION_MAX: nat := U64_MAX * 1_000_000_000 + 999_999_999

  datatype Bucket = Bucket(tokens: nat, lastRefillAt: nat)

  datatype Limits = Limits(burst: nat, refill: nat, capacity: nat)

  predicate ValidLimits(l: Limits) {
    0 < l.burst <= U64_MAX && 0 < l.refill && 0 < l.capacity
  }

  function SaturatingAdd(a: nat, b: nat): nat {
    Min(a + Min(b, U64_MAX), U64_MAX)
  }

  /** Refilling discards the remainder of the elapsed time. */
  function Refilled(l: Limits, b: Bucket, now: nat): Bucket
    requires l.refill > 0
  {
    var count := Elapsed(now, b.lastRefillAt) / l.refill;
    if count != 0 then Bucket(Min(SaturatingAdd(b.tokens, count), l.burst), now) else b
  }

  datatype Attempt = Attempt(buckets: map<Peer, Bucket>, allowed: bool)

  predicate HasRoom(l: Limits, buckets: map<Peer, Bucket>, peer: Peer) {
    peer in buckets || |buckets| < l.capacity
  }

  /** `allow_handshake_attempt`. */
  function TryAttempt(l: Limits, buckets: map<Peer, Bucket>, peer: Peer, now: nat): Attempt
    requires l.refill > 0
  {
    if !HasRoom(l, buckets, peer) then Attempt(buckets, false)
    else
      var b := Refilled(l, if peer in buckets then buckets[peer] else Bucket(l.burst, now), now);
      if b.tokens == 0 then Attempt(buckets[peer := b], false)
      else Attempt(buckets[peer := b.(tokens := b.tokens - 1)], true)
  }

  /** How long an untouched bucket is kept. */
  function Retention(l: Limits): nat {
    Min(l.refill * Min(l.burst, U32_MAX), DURATION_MAX)
  }

  /** The bucket part of `expire`. */
  function Evict(l: Limits, buckets: map<Peer, Bucket>, now: nat): map<Peer, Bucket> {
    map p | p in buckets && Elapsed(now, buckets[p].lastRefillAt) < Retention(l) :: buckets[p]
  }
}
