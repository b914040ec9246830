/** What the token bucket guarantees over any sequence of attempts and ticks. */
module RateLimitTheorems {
  import opened Base
  import opened RateLimit

  /** A handshake attempt of a peer, or a tick that evicts idle buckets. */
  datatype Op = Try(peer: Peer, at: nat) | Tick(at: nat)

  function Step(l: Limits, buckets: map<Peer, Bucket>, op: Op): Attempt
    requires l.refill > 0
  {
    match op
    case Try(peer, at) => TryAttempt(l, buckets, peer, at)
    case Tick(at) => Attempt(Evict(l, buckets, at), false)
  }

  /** Clocks do not go back, and read `clock` at most: less than the largest duration,
      as no two instants are that far apart. */
  ghost predicate Timely(ops: seq<Op>, now: nat, clock: nat) {
    ops != [] ==> now <= ops[0].at <= clock && Timely(ops[1..], ops[0].at, clock)
  }

  /** Retention is not cut short by the width of the burst in it, or not by anything
      that the clock can reach. */
  predicate Unsaturated(l: Limits, clock: nat) {
    l.burst <= U32_MAX || clock < l.refill * U32_MAX
  }

  /** A stored bucket has been drawn from since it was last full. */
  ghost predicate Drawn(l: Limits, buckets: map<Peer, Bucket>, now: nat) {
    forall p :: p in buckets ==> buckets[p].tokens < l.burst && buckets[p].lastRefillAt <= now
  }

  // ---------------------------------------------------------------- potential

  /** A peer's credit at a time, counted in nanoseconds of refilling. */
  function Credit(l: Limits, buckets: map<Peer, Bucket>, peer: Peer, at: nat): nat {
    if peer in buckets then BucketCredit(l, buckets[peer], at) else l.burst * l.refill
  }

  function BucketCredit(l: Limits, b: Bucket, at: nat): nat {
    Min(l.burst * l.refill, b.tokens * l.refill + Elapsed(at, b.lastRefillAt))
  }

  lemma MulMonotone(a: nat, b: nat, c: nat)
    requires a <= b
    ensures a * c <= b * c
  {
  }

  lemma DivFloor(e: nat, r: nat)
    requires r > 0
    ensures (e / r) * r <= e < (e / r) * r + r
  {
  }

  /** Whole tokens gained cost at least their refill time. */
  lemma GainCredit(tokens: nat, gained: nat, cap: nat, refill: nat, elapsed: nat)
    requires gained * refill <= elapsed
    ensures Min(tokens + gained, cap) * refill <= tokens * refill + elapsed
    ensures Min(tokens + gained, cap) * refill <= cap * refill
  {
    MulMonotone(Min(tokens + gained, cap), tokens + gained, refill);
    MulMonotone(Min(tokens + gained, cap), cap, refill);
    assert (tokens + gained) * refill == tokens * refill + gained * refill;
  }

  /** The bucket as a function of unbounded arithmetic. */
  lemma RefilledTokens(l: Limits, b: Bucket, at: nat)
    requires ValidLimits(l) && b.tokens <= l.burst && b.lastRefillAt <= at && (at - b.lastRefillAt) / l.refill != 0
    ensures Refilled(l, b, at) == Bucket(Min(b.tokens + (at - b.lastRefillAt) / l.refill, l.burst), at)
  {
  }

  lemma RefillCredit(l: Limits, b: Bucket, at: nat)
    requires ValidLimits(l) && b.tokens < l.burst && b.lastRefillAt <= at
    ensures var r := Refilled(l, b, at);
            && r.tokens <= l.burst && r.lastRefillAt <= at
            && r.tokens * l.refill + (at - r.lastRefillAt) <= b.tokens * l.refill + (at - b.lastRefillAt)
            && r.tokens * l.refill + (at - r.lastRefillAt) <= l.burst * l.refill
  {
    var e := at - b.lastRefillAt;
    DivFloor(e, l.refill);
    if e / l.refill == 0 {
      MulMonotone(b.tokens + 1, l.burst, l.refill);
      assert (b.tokens + 1) * l.refill == b.tokens * l.refill + l.refill;
    } else {
      RefilledTokens(l, b, at);
      GainCredit(b.tokens, e / l.refill, l.burst, l.refill, e);
    }
  }

  /** A bucket as it is found: stored, or new and full. */
  ghost predicate Found(l: Limits, b: Bucket, at: nat) {
    (b.tokens < l.burst && b.lastRefillAt <= at) || b == Bucket(l.burst, at)
  }

  /** A bucket refilled and drawn from pays for the attempt. */
  lemma DrawCredit(l: Limits, b: Bucket, at: nat)
    requires ValidLimits(l) && Found(l, b, at)
    ensures var r := Refilled(l, b, at);
            && r.lastRefillAt <= at && r.tokens <= l.burst
            && (r.tokens == 0 ==> BucketCredit(l, r, at) <= BucketCredit(l, b, at))
            && (r.tokens > 0 ==> BucketCredit(l, r.(tokens := r.tokens - 1), at) + l.refill <= BucketCredit(l, b, at))
  {
    var r := Refilled(l, b, at);
    if b.tokens < l.burst {
      RefillCredit(l, b, at);
    } else {
      assert (at - b.lastRefillAt) / l.refill == 0;
    }
    if r.tokens > 0 {
      assert (r.tokens - 1) * l.refill + l.refill == r.tokens * l.refill;
    }
  }

  lemma TryCredit(l: Limits, buckets: map<Peer, Bucket>, peer: Peer, at: nat)
    requires ValidLimits(l) && Drawn(l, buckets, at)
    ensures var a := TryAttempt(l, buckets, peer, at);
            && Drawn(l, a.buckets, at)
            && Credit(l, a.buckets, peer, at) + (if a.allowed then l.refill else 0) <= Credit(l, buckets, peer, at)
            && (forall p :: p != peer ==> Credit(l, a.buckets, p, at) == Credit(l, buckets, p, at))
  {
    hide Refilled, BucketCredit;
    if HasRoom(l, buckets, peer) {
      var b := if peer in buckets then buckets[peer] else Bucket(l.burst, at);
      DrawCredit(l, b, at);
      if peer !in buckets {
        FullCredit(l, at);
      }
    }
  }

  lemma FullCredit(l: Limits, at: nat)
    ensures BucketCredit(l, Bucket(l.burst, at), at) == l.burst * l.refill
  {
  }

  /** What is old enough to be evicted is old enough to be full. */
  lemma RetentionSuffices(l: Limits, age: nat, clock: nat)
    requires ValidLimits(l) && Unsaturated(l, clock) && age <= clock < DURATION_MAX && age >= Retention(l)
    ensures age >= l.burst * l.refill
  {
    assert Min(l.burst, U32_MAX) == if l.burst > U32_MAX then U32_MAX else l.burst;
  }

  /** An evicted bucket would have been full. */
  lemma EvictCredit(l: Limits, buckets: map<Peer, Bucket>, at: nat, clock: nat)
    requires ValidLimits(l) && Unsaturated(l, clock) && Drawn(l, buckets, at) && at <= clock < DURATION_MAX
    ensures Drawn(l, Evict(l, buckets, at), at)
    ensures forall p :: Credit(l, Evict(l, buckets, at), p, at) == Credit(l, buckets, p, at)
  {
    hide Retention, Unsaturated;
    forall p | p in buckets && p !in Evict(l, buckets, at)
      ensures BucketCredit(l, buckets[p], at) == l.burst * l.refill
    {
      RetentionSuffices(l, Elapsed(at, buckets[p].lastRefillAt), clock);
    }
  }

  lemma StepCredit(l: Limits, buckets: map<Peer, Bucket>, op: Op, peer: Peer, clock: nat)
    requires ValidLimits(l) && Drawn(l, buckets, op.at) && op.at <= clock < DURATION_MAX && (op.Tick? ==> Unsaturated(l, clock))
    ensures var a := Step(l, buckets, op);
            && Drawn(l, a.buckets, op.at)
            && Credit(l, a.buckets, peer, op.at) + (if op.Try? && op.peer == peer && a.allowed then l.refill else 0)
               <= Credit(l, buckets, peer, op.at)
  {
    match op
    case Try(p, at) => TryCredit(l, buckets, p, at);
    case Tick(at) => EvictCredit(l, buckets, at, clock);
  }

  lemma CreditGrows(l: Limits, buckets: map<Peer, Bucket>, peer: Peer, now: nat, at: nat)
    requires Drawn(l, buckets, now) && now <= at
    ensures Credit(l, buckets, peer, at) <= Credit(l, buckets, peer, now) + (at - now)
    ensures Drawn(l, buckets, at)
  {
  }

  // ---------------------------------------------------------------- the bound

  /** The attempts of a peer that are allowed in a closed time interval. */
  function Allowed(l: Limits, buckets: map<Peer, Bucket>, ops: seq<Op>, peer: Peer, from: nat, to: nat): nat
    requires l.refill > 0
    decreases |ops|
  {
    if ops == [] then 0
    else
      var a := Step(l, buckets, ops[0]);
      (if ops[0].Try? && ops[0].peer == peer && a.allowed && from <= ops[0].at <= to then 1 else 0)
      + Allowed(l, a.buckets, ops[1..], peer, from, to)
  }

  lemma {:induction false} NoneLater(l: Limits, buckets: map<Peer, Bucket>, ops: seq<Op>, peer: Peer, from: nat, to: nat, now: nat,
                                     clock: nat)
    requires l.refill > 0 && Timely(ops, now, clock) && to < now
    ensures Allowed(l, buckets, ops, peer, from, to) == 0
    decreases |ops|
  {
    if ops != [] {
      NoneLater(l, Step(l, buckets, ops[0]).buckets, ops[1..], peer, from, to, ops[0].at, clock);
    }
  }

  lemma Pay(one: bool, rest: nat, refill: nat, left: nat, purse: nat)
    requires rest * refill <= left && left + (if one then refill else 0) <= purse
    ensures ((if one then 1 else 0) + rest) * refill <= purse
  {
    assert (1 + rest) * refill == refill + rest * refill;
  }

  /** No eviction comes too early: retention is unsaturated, or nothing is evicted. */
  ghost predicate Gentle(l: Limits, ops: seq<Op>, clock: nat) {
    Unsaturated(l, clock) || forall op :: op in ops ==> op.Try?
  }

  /** Every allowed attempt is paid for with credit. */
  lemma {:induction false} PaidFor(l: Limits, buckets: map<Peer, Bucket>, ops: seq<Op>, peer: Peer, from: nat, to: nat, now: nat,
                                   clock: nat)
    requires ValidLimits(l) && Gentle(l, ops, clock) && Drawn(l, buckets, now) && Timely(ops, now, clock) && clock < DURATION_MAX
    requires from <= now <= to
    ensures Allowed(l, buckets, ops, peer, from, to) * l.refill <= Credit(l, buckets, peer, now) + (to - now)
    decreases |ops|
  {
    hide Step, Credit, Drawn, Unsaturated;
    if ops != [] {
      var at := ops[0].at;
      var a := Step(l, buckets, ops[0]);
      if at > to {
        NoneLater(l, buckets, ops, peer, from, to, at, clock);
      } else {
        CreditGrows(l, buckets, peer, now, at);
        StepCredit(l, buckets, ops[0], peer, clock);
        PaidFor(l, a.buckets, ops[1..], peer, from, to, at, clock);
        var one := ops[0].Try? && ops[0].peer == peer && a.allowed;
        var rest := Allowed(l, a.buckets, ops[1..], peer, from, to);
        assert Allowed(l, buckets, ops, peer, from, to) == (if one then 1 else 0) + rest;
        Pay(one, rest, l.refill, Credit(l, a.buckets, peer, at) + (to - at), Credit(l, buckets, peer, now) + (to - now));
      }
    }
  }

  lemma AllowedBefore(l: Limits, buckets: map<Peer, Bucket>, ops: seq<Op>, peer: Peer, from: nat, to: nat)
    requires l.refill > 0
    ensures ops == [] ==> Allowed(l, buckets, ops, peer, from, to) == 0
    ensures ops != [] && ops[0].at < from ==>
              Allowed(l, buckets, ops, peer, from, to)
              == Allowed(l, Step(l, buckets, ops[0]).buckets, ops[1..], peer, from, to)
  {
  }

  lemma {:induction false} PaidInWindow(l: Limits, buckets: map<Peer, Bucket>, ops: seq<Op>, peer: Peer, from: nat, to: nat, now: nat,
                                        clock: nat)
    requires ValidLimits(l) && Gentle(l, ops, clock) && Drawn(l, buckets, now) && Timely(ops, now, clock) && clock < DURATION_MAX
    requires from <= to
    ensures Allowed(l, buckets, ops, peer, from, to) * l.refill <= l.burst * l.refill + (to - from)
    decreases |ops|
  {
    hide Allowed, Step, Unsaturated;
    AllowedBefore(l, buckets, ops, peer, from, to);
    assert l.burst * l.refill >= 0;
    if ops != [] {
      var at := ops[0].at;
      assert ops[0] in ops;
      CreditGrows(l, buckets, peer, now, at);
      if at < from {
        StepCredit(l, buckets, ops[0], peer, clock);
        PaidInWindow(l, Step(l, buckets, ops[0]).buckets, ops[1..], peer, from, to, at, clock);
      } else if at > to {
        NoneLater(l, buckets, ops, peer, from, to, at, clock);
      } else {
        PaidFor(l, buckets, ops, peer, from, to, at, clock);
      }
    }
  }

  lemma Floor(n: nat, burst: nat, refill: nat, span: nat)
    requires refill > 0 && n * refill <= burst * refill + span
    ensures n <= burst + span / refill
  {
    DivFloor(span, refill);
    assert (burst + span / refill + 1) * refill == burst * refill + (span / refill) * refill + refill;
    if n > burst + span / refill {
      MulMonotone(burst + span / refill + 1, n, refill);
    }
  }

  /** The bound: whatever else happens, ticks and evictions included, a peer gets
      at most `burst + floor(T / refill_interval)` attempts in an interval of
      length T. */
  lemma RateBound(l: Limits, ops: seq<Op>, peer: Peer, from: nat, to: nat, clock: nat)
    requires ValidLimits(l) && Unsaturated(l, clock) && Timely(ops, 0, clock) && clock < DURATION_MAX && from <= to
    ensures Allowed(l, map[], ops, peer, from, to) <= l.burst + (to - from) / l.refill
  {
    PaidInWindow(l, map[], ops, peer, from, to, 0, clock);
    Floor(Allowed(l, map[], ops, peer, from, to), l.burst, l.refill, to - from);
  }

  // ---------------------------------------------------------------- eviction, unobservable

  /** The answers to the attempts of a sequence. */
  function Answers(l: Limits, buckets: map<Peer, Bucket>, ops: seq<Op>): seq<bool>
    requires l.refill > 0
    decreases |ops|
  {
    if ops == [] then []
    else
      var a := Step(l, buckets, ops[0]);
      (if ops[0].Try? then [a.allowed] else []) + Answers(l, a.buckets, ops[1..])
  }

  function Attempts(ops: seq<Op>): seq<Op> {
    if ops == [] then [] else (if ops[0].Try? then [ops[0]] else []) + Attempts(ops[1..])
  }

  /** Every attempt finds a bucket or room for one. */
  ghost predicate Roomy(l: Limits, buckets: map<Peer, Bucket>, ops: seq<Op>)
    requires l.refill > 0
    decreases |ops|
  {
    ops != [] ==>
      && (ops[0].Try? ==> HasRoom(l, buckets, ops[0].peer))
      && Roomy(l, Step(l, buckets, ops[0]).buckets, ops[1..])
  }

  /** The same limits with room for one bucket per attempt: the table of a limiter
      that never evicts. */
  function Ample(l: Limits, n: nat): Limits {
    l.(capacity := n)
  }

  /** Buckets kept agree; one that was evicted would be full. */
  ghost predicate Alike(l: Limits, kept: map<Peer, Bucket>, all: map<Peer, Bucket>, now: nat) {
    && (forall p :: p in kept ==> p in all && all[p] == kept[p])
    && (forall p :: p in all && p !in kept ==> Elapsed(now, all[p].lastRefillAt) >= l.burst * l.refill)
  }

  lemma FullAgain(l: Limits, b: Bucket, at: nat)
    requires ValidLimits(l) && b.tokens < l.burst && b.lastRefillAt <= at
    requires at - b.lastRefillAt >= l.burst * l.refill
    ensures Refilled(l, b, at) == Bucket(l.burst, at)
  {
    var e := at - b.lastRefillAt;
    DivFloor(e, l.refill);
    assert (e / l.refill + 1) * l.refill == (e / l.refill) * l.refill + l.refill;
    if e / l.refill < l.burst {
      MulMonotone(e / l.refill + 1, l.burst, l.refill);
    }
  }

  lemma TryAlike(l: Limits, big: Limits, kept: map<Peer, Bucket>, all: map<Peer, Bucket>, peer: Peer, at: nat)
    requires ValidLimits(l) && big == Ample(l, big.capacity) && Drawn(l, all, at) && Alike(l, kept, all, at)
    requires HasRoom(l, kept, peer) && HasRoom(big, all, peer) && big.capacity > 0
    ensures var a := TryAttempt(l, kept, peer, at); var b := TryAttempt(big, all, peer, at);
            a.allowed == b.allowed && Alike(l, a.buckets, b.buckets, at) && Drawn(l, b.buckets, at)
  {
    TryCredit(big, all, peer, at);
    if peer in all && peer !in kept {
      FullAgain(l, all[peer], at);
    }
  }

  lemma TickAlike(l: Limits, kept: map<Peer, Bucket>, all: map<Peer, Bucket>, at: nat, clock: nat)
    requires ValidLimits(l) && Unsaturated(l, clock) && Alike(l, kept, all, at) && at <= clock < DURATION_MAX
    ensures Alike(l, Evict(l, kept, at), all, at)
  {
    hide Retention, Unsaturated;
    forall p | p in all && p !in Evict(l, kept, at)
      ensures Elapsed(at, all[p].lastRefillAt) >= l.burst * l.refill
    {
      if p in kept {
        RetentionSuffices(l, Elapsed(at, all[p].lastRefillAt), clock);
      }
    }
  }

  lemma LaterAlike(l: Limits, kept: map<Peer, Bucket>, all: map<Peer, Bucket>, now: nat, at: nat)
    requires Alike(l, kept, all, now) && now <= at
    ensures Alike(l, kept, all, at)
  {
  }

  lemma {:induction false} SameAnswers(l: Limits, kept: map<Peer, Bucket>, all: map<Peer, Bucket>, ops: seq<Op>, now: nat, n: nat,
                                       clock: nat)
    requires ValidLimits(l) && Unsaturated(l, clock) && Timely(ops, now, clock) && clock < DURATION_MAX
    requires Drawn(l, all, now) && Alike(l, kept, all, now) && Roomy(l, kept, ops) && |all| + |ops| <= n
    ensures Answers(l, kept, ops) == Answers(Ample(l, n), all, Attempts(ops))
    decreases |ops|
  {
    if ops != [] {
      var at := ops[0].at;
      LaterAlike(l, kept, all, now, at);
      CreditGrows(l, all, 0, now, at);
      match ops[0]
      case Try(peer, _) =>
        TryAlike(l, Ample(l, n), kept, all, peer, at);
        var all1 := TryAttempt(Ample(l, n), all, peer, at).buckets;
        assert |all1| <= |all| + 1;
        assert Attempts(ops)[0] == ops[0] && Attempts(ops)[1..] == Attempts(ops[1..]);
        SameAnswers(l, Step(l, kept, ops[0]).buckets, all1, ops[1..], at, n, clock);
      case Tick(_) =>
        TickAlike(l, kept, all, at, clock);
        assert Attempts(ops) == Attempts(ops[1..]);
        SameAnswers(l, Step(l, kept, ops[0]).buckets, all, ops[1..], at, n, clock);
    }
  }

  /** What the limiter answers, and what it would answer if it never evicted. */
  ghost predicate Unobservable(l: Limits, ops: seq<Op>)
    requires l.refill > 0
  {
    Answers(l, map[], ops) == Answers(Ample(l, |ops|), map[], Attempts(ops))
  }

  // ---------------------------------------------------------------- saturated retention

  function Tries(peer: Peer, at: nat, n: nat): seq<Op> {
    if n == 0 then [] else [Try(peer, at)] + Tries(peer, at, n - 1)
  }

  lemma {:induction false} Drain(l: Limits, at: nat, n: nat, left: nat, ops: seq<Op>, to: nat)
    requires ValidLimits(l) && at <= to && n + left < l.burst
    ensures Allowed(l, map[0 := Bucket(n + left, at)], Tries(0, at, n) + ops, 0, 0, to)
            == n + Allowed(l, map[0 := Bucket(left, at)], ops, 0, 0, to)
  {
    var full := map[0 := Bucket(n + left, at)];
    if n == 0 {
      assert Tries(0, at, n) + ops == ops;
    } else {
      var all := Tries(0, at, n) + ops;
      assert all[0] == Try(0, at) && all[1..] == Tries(0, at, n - 1) + ops;
      assert TryAttempt(l, full, 0, at).buckets == map[0 := Bucket(n - 1 + left, at)];
      Drain(l, at, n - 1, left, ops, to);
    }
  }

  lemma DrainNew(l: Limits, at: nat, ops: seq<Op>, to: nat)
    requires ValidLimits(l) && at <= to
    ensures Allowed(l, map[], Tries(0, at, l.burst) + ops, 0, 0, to)
            == l.burst + Allowed(l, map[0 := Bucket(0, at)], ops, 0, 0, to)
  {
    var all := Tries(0, at, l.burst) + ops;
    assert all[0] == Try(0, at) && all[1..] == Tries(0, at, l.burst - 1) + ops;
    assert TryAttempt(l, map[], 0, at).buckets == map[0 := Bucket(l.burst - 1, at)];
    Drain(l, at, l.burst - 1, 0, ops, to);
  }

  /** Drain the bucket, wait for its eviction, and drain it again. */
  function TwoBursts(l: Limits): seq<Op> {
    Tries(0, 0, l.burst) + [Tick(Retention(l))] + Tries(0, Retention(l), l.burst)
  }

  lemma TwoBurstsAllowed(l: Limits)
    requires ValidLimits(l)
    ensures Allowed(l, map[], TwoBursts(l), 0, 0, Retention(l)) == 2 * l.burst
  {
    var r := Retention(l);
    var second := Tries(0, r, l.burst);
    var tail := [Tick(r)] + second;
    assert TwoBursts(l) == Tries(0, 0, l.burst) + tail;
    DrainNew(l, 0, tail, r);
    assert tail[1..] == second && second + [] == second;
    assert Evict(l, map[0 := Bucket(0, 0)], r) == map[];
    DrainNew(l, r, [], r);
  }

  lemma RetentionShort(l: Limits, clock: nat)
    requires ValidLimits(l) && !Unsaturated(l, clock)
    ensures Retention(l) < l.burst * l.refill && Retention(l) / l.refill < l.burst && Retention(l) <= clock
  {
    var r := Retention(l);
    assert Min(l.burst, U32_MAX) == U32_MAX && r <= l.refill * U32_MAX;
    MulMonotone(U32_MAX + 1, l.burst, l.refill);
    assert r < l.burst * l.refill;
    DivFloor(r, l.refill);
    if r / l.refill >= l.burst {
      MulMonotone(l.burst, r / l.refill, l.refill);
    }
  }

  /** How many answers allow the attempt. */
  function Yes(answers: seq<bool>): nat {
    if answers == [] then 0 else (if answers[0] then 1 else 0) + Yes(answers[1..])
  }

  ghost predicate OfOnePeer(ops: seq<Op>, to: nat) {
    forall op :: op in ops ==> op.at <= to && (op.Try? ==> op.peer == 0)
  }

  lemma {:induction false} AllowedAnswers(l: Limits, buckets: map<Peer, Bucket>, ops: seq<Op>, to: nat)
    requires l.refill > 0 && OfOnePeer(ops, to)
    ensures Allowed(l, buckets, ops, 0, 0, to) == Yes(Answers(l, buckets, ops))
    decreases |ops|
  {
    if ops != [] {
      var a := Step(l, buckets, ops[0]);
      var rest := Answers(l, a.buckets, ops[1..]);
      AllowedAnswers(l, a.buckets, ops[1..], to);
      assert ops[0] in ops;
      if ops[0].Try? {
        assert Answers(l, buckets, ops)[1..] == rest;
      } else {
        assert Answers(l, buckets, ops) == rest;
      }
    }
  }

  lemma {:induction false} AttemptsOnly(ops: seq<Op>, now: nat, clock: nat)
    requires Timely(ops, now, clock)
    ensures Timely(Attempts(ops), now, clock)
    ensures forall op :: op in Attempts(ops) ==> op.Try? && op in ops
    decreases |ops|
  {
    if ops != [] {
      AttemptsOnly(ops[1..], ops[0].at, clock);
      if ops[0].Try? {
        assert Attempts(ops)[1..] == Attempts(ops[1..]);
      } else {
        assert Attempts(ops) == Attempts(ops[1..]);
        EarlierTimely(Attempts(ops), ops[0].at, now, clock);
      }
    }
  }

  lemma EarlierTimely(ops: seq<Op>, at: nat, now: nat, clock: nat)
    requires Timely(ops, at, clock) && now <= at
    ensures Timely(ops, now, clock)
  {
  }

  lemma {:induction false} TriesTimely(at: nat, n: nat, ops: seq<Op>, now: nat, clock: nat)
    requires now <= at <= clock && Timely(ops, at, clock)
    ensures Timely(Tries(0, at, n) + ops, now, clock)
    ensures forall op :: op in Tries(0, at, n) ==> op == Try(0, at)
  {
    if n == 0 {
      assert Tries(0, at, n) + ops == ops;
      EarlierTimely(ops, at, now, clock);
    } else {
      TriesTimely(at, n - 1, ops, at, clock);
      assert (Tries(0, at, n) + ops)[1..] == Tries(0, at, n - 1) + ops;
    }
  }

  lemma TwoBurstsTimely(l: Limits, clock: nat)
    requires Retention(l) <= clock
    ensures Timely(TwoBursts(l), 0, clock) && OfOnePeer(TwoBursts(l), Retention(l))
  {
    var r := Retention(l);
    var second := Tries(0, r, l.burst);
    TriesTimely(r, l.burst, [], r, clock);
    assert second + [] == second;
    var tail := [Tick(r)] + second;
    assert tail[1..] == second;
    TriesTimely(0, l.burst, tail, 0, clock);
    assert TwoBursts(l) == Tries(0, 0, l.burst) + tail;
  }

  lemma {:induction false} OnePeerRoomy(l: Limits, buckets: map<Peer, Bucket>, ops: seq<Op>, to: nat)
    requires ValidLimits(l) && OfOnePeer(ops, to) && buckets.Keys <= {0}
    ensures Roomy(l, buckets, ops)
    decreases |ops|
  {
    if ops != [] {
      assert ops[0] in ops;
      if 0 !in buckets {
        assert buckets == map[];
      }
      OnePeerRoomy(l, Step(l, buckets, ops[0]).buckets, ops[1..], to);
    }
  }

  /** With a saturated retention two bursts fit where one and the refill should. */
  lemma SaturatedFails(l: Limits, clock: nat)
    requires ValidLimits(l) && !Unsaturated(l, clock) && clock < DURATION_MAX
    ensures var ops := TwoBursts(l); var to := Retention(l);
            && Timely(ops, 0, clock) && Roomy(l, map[], ops)
            && Allowed(l, map[], ops, 0, 0, to) > l.burst + to / l.refill
            && !Unobservable(l, ops)
  {
    var ops, to := TwoBursts(l), Retention(l);
    var big := Ample(l, |ops|);
    RetentionShort(l, clock);
    TwoBurstsTimely(l, clock);
    TwoBurstsAllowed(l);
    OnePeerRoomy(l, map[], ops, to);
    AttemptsOnly(ops, 0, clock);
    AllowedAnswers(l, map[], ops, to);
    AllowedAnswers(big, map[], Attempts(ops), to);
    PaidInWindow(big, map[], Attempts(ops), 0, 0, to, 0, clock);
    Floor(Allowed(big, map[], Attempts(ops), 0, 0, to), l.burst, l.refill, to);
  }

  /** Eviction is unobservable, while the table has room, exactly when retention
      is not saturated. */
  lemma EvictionUnobservable(l: Limits, clock: nat)
    requires ValidLimits(l) && clock < DURATION_MAX
    ensures (forall ops :: Timely(ops, 0, clock) && Roomy(l, map[], ops) ==> Unobservable(l, ops)) <==> Unsaturated(l, clock)
  {
    if Unsaturated(l, clock) {
      forall ops | Timely(ops, 0, clock) && Roomy(l, map[], ops)
        ensures Unobservable(l, ops)
      {
        SameAnswers(l, map[], map[], ops, 0, |ops|, clock);
      }
    } else {
      SaturatedFails(l, clock);
    }
  }

  ghost predicate Bounded(l: Limits, ops: seq<Op>, peer: Peer, from: nat, to: nat)
    requires l.refill > 0
  {
    from <= to ==> Allowed(l, map[], ops, peer, from, to) <= l.burst + (to - from) / l.refill
  }

  /** The bound holds exactly when retention is not saturated. */
  lemma RateBoundExact(l: Limits, clock: nat)
    requires ValidLimits(l) && clock < DURATION_MAX
    ensures (forall ops, peer: Peer, from: nat, to: nat :: Timely(ops, 0, clock) ==> Bounded(l, ops, peer, from, to))
            <==> Unsaturated(l, clock)
  {
    if Unsaturated(l, clock) {
      forall ops, peer: Peer, from: nat, to: nat | Timely(ops, 0, clock)
        ensures Bounded(l, ops, peer, from, to)
      {
        if from <= to {
          RateBound(l, ops, peer, from, to, clock);
        }
      }
    } else {
      SaturatedFails(l, clock);
      assert !Bounded(l, TwoBursts(l), 0, 0, Retention(l));
    }
  }
}
