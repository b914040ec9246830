/** The rate limit in runs of the server. */
module RateLimitRuns {
  import opened Base
  import opened Config
  import opened Messages
  import opened ServerSpec
  import opened RateLimitTheorems
  import RateLimit

  /** A hello that comes to the limiter: only the suite is looked at before. */
  predicate Knocks(env: ServerEnv, event: ServerEvent) {
    event.TunnelFrame? && event.frame.HelloMsg? && event.frame.hello.suite == env.cfg.suite
  }

  /** What the limiter sees of a run. */
  function OpsOf(env: ServerEnv, inputs: seq<Arrival>): seq<Op> {
    if inputs == [] then []
    else
      var i := inputs[0];
      (if Knocks(env, i.event) then [Try(i.event.from, i.now)] else if i.event.TimeAdvanced? then [Tick(i.event.at)] else [])
      + OpsOf(env, inputs[1..])
  }

  /** The hellos of a peer that pass the limiter in a closed interval of time: those
      that are not answered with `HandshakeRateLimited`. */
  function Passed(env: ServerEnv, s: Server, inputs: seq<Arrival>, peer: PeerId, from: Time, to: Time): nat
    requires env.cfg.rateRefillInterval > 0
    decreases |inputs|
  {
    if inputs == [] then 0
    else
      var i := inputs[0];
      var o := ServerStep(env, s, i.event, i.now, i.draws);
      (if Knocks(env, i.event) && i.event.from == peer && from <= i.now <= to && o.reply != Err(HandshakeRateLimited) then 1 else 0)
      + Passed(env, o.server, inputs[1..], peer, from, to)
  }

  lemma AdmitBuckets(env: ServerEnv, s: Server, peer: PeerId, hello: ClientHello, now: Time, draws: ServerDraws)
    ensures var o := AdmitHello(env, s, peer, hello, now, draws);
            o.server.buckets == s.buckets && o.reply != Err(HandshakeRateLimited)
  {
  }

  /** A hello draws on its peer's bucket, and is turned away exactly when it is empty. */
  lemma HelloBuckets(env: ServerEnv, s: Server, event: ServerEvent, now: Time, draws: ServerDraws)
    requires env.cfg.rateRefillInterval > 0 && Knocks(env, event)
    ensures var o := ServerStep(env, s, event, now, draws);
            var a := RateLimit.TryAttempt(Limits(env.cfg), s.buckets, event.from, now);
            o.server.buckets == a.buckets && (o.reply != Err(HandshakeRateLimited) <==> a.allowed)
  {
    hide AdmitHello, CookieVerifies, RateLimit.TryAttempt;
    var s1 := s.(buckets := RateLimit.TryAttempt(Limits(env.cfg), s.buckets, event.from, now).buckets);
    AdmitBuckets(env, s1, event.from, event.frame.hello, now, draws);
    AdmitBuckets(env, WithOrigin(s1, now), event.from, event.frame.hello, now, draws);
  }

  lemma OtherBuckets(env: ServerEnv, s: Server, event: ServerEvent, now: Time, draws: ServerDraws)
    requires env.cfg.rateRefillInterval > 0 && !Knocks(env, event)
    ensures ServerStep(env, s, event, now, draws).server.buckets
         == if event.TimeAdvanced? then RateLimit.Evict(Limits(env.cfg), s.buckets, event.at) else s.buckets
  {
    hide RateLimit.Evict, PruneAllActions, OverActions, RecoveryActions, Recoveries, Pruned, OfferRecord, NewServerSession, Inherited,
         AdmitHello;
  }

  lemma {:induction false} PassedIsAllowed(env: ServerEnv, s: Server, inputs: seq<Arrival>, peer: PeerId, from: Time, to: Time)
    requires env.cfg.rateRefillInterval > 0
    ensures Passed(env, s, inputs, peer, from, to) == Allowed(Limits(env.cfg), s.buckets, OpsOf(env, inputs), peer, from, to)
    decreases |inputs|
  {
    hide ServerStep, RateLimit.TryAttempt, RateLimit.Evict;
    if inputs != [] {
      var i := inputs[0];
      var o := ServerStep(env, s, i.event, i.now, i.draws);
      var ops, rest := OpsOf(env, inputs), OpsOf(env, inputs[1..]);
      PassedIsAllowed(env, o.server, inputs[1..], peer, from, to);
      if Knocks(env, i.event) {
        HelloBuckets(env, s, i.event, i.now, i.draws);
        assert ops[0] == Try(i.event.from, i.now) && ops[1..] == rest;
      } else {
        OtherBuckets(env, s, i.event, i.now, i.draws);
        if i.event.TimeAdvanced? {
          assert ops[0] == Tick(i.event.at) && ops[1..] == rest;
        } else {
          assert ops == rest;
        }
      }
    }
  }

  /** In every run of the server, whatever its events, the hellos of one peer that
      pass the limiter in an interval of length T number at most
      `burst + floor(T / refill_interval)`. */
  lemma HellosBounded(env: ServerEnv, inputs: seq<Arrival>, peer: PeerId, from: Time, to: Time, clock: Time)
    requires ValidConfig(env.cfg) && env.cfg.rateLimitBurst <= U64_MAX && from <= to
    requires Timely(OpsOf(env, inputs), 0, clock) && clock < RateLimit.DURATION_MAX && Unsaturated(Limits(env.cfg), clock)
    ensures Passed(env, NewServer(), inputs, peer, from, to) <= env.cfg.rateLimitBurst + (to - from) / env.cfg.rateRefillInterval
  {
    PassedIsAllowed(env, NewServer(), inputs, peer, from, to);
    RateBound(Limits(env.cfg), OpsOf(env, inputs), peer, from, to, clock);
  }
}
