/** Cookies and resumption credentials, from issue to admission. */
module Cookies {
  import opened Base
  import opened Messages
  import opened ServerSpec
  import C = ClientSpec
  import RateLimit

  // ---------------------------------------------------------------- the clock

  lemma AdmitOrigin(env: ServerEnv, s: Server, peer: PeerId, hello: ClientHello, now: Time, draws: ServerDraws)
    requires s.clockOrigin.Some?
    ensures AdmitHello(env, s, peer, hello, now, draws).server.clockOrigin == s.clockOrigin
  {
    hide FindAttempt, FirstFresh, ResumeFrom, CreateServerHello;
  }

  lemma FrameOrigin(env: ServerEnv, s: Server, peer: PeerId, frame: Frame, now: Time, draws: ServerDraws)
    requires env.cfg.rateRefillInterval > 0 && s.clockOrigin.Some?
    ensures HandleTunnel(env, s, peer, frame, now, draws).server.clockOrigin == s.clockOrigin
  {
    hide AdmitHello, OfferRecord, NewServerSession, Inherited, CookieVerifies, RateLimit.TryAttempt, FinishRefusal, CreateRetry;
    if frame.HelloMsg? {
      var s1 := s.(buckets := RateLimit.TryAttempt(Limits(env.cfg), s.buckets, peer, now).buckets);
      AdmitOrigin(env, s1, peer, frame.hello, now, draws);
    }
  }

  lemma OriginStep(env: ServerEnv, s: Server, event: ServerEvent, now: Time, draws: ServerDraws)
    requires env.cfg.rateRefillInterval > 0 && s.clockOrigin.Some?
    ensures ServerStep(env, s, event, now, draws).server.clockOrigin == s.clockOrigin
  {
    hide HandleTunnel, Recoveries, Pruned, PruneAllActions, OverActions, RecoveryActions, RateLimit.Evict;
    if event.TunnelFrame? {
      FrameOrigin(env, s, event.from, event.frame, now, draws);
    }
  }

  /** Once started, the clock keeps its origin through any events. */
  lemma {:induction false} OriginStays(env: ServerEnv, s: Server, inputs: seq<Arrival>)
    requires env.cfg.rateRefillInterval > 0 && s.clockOrigin.Some?
    ensures ServerRun(env, s, inputs).clockOrigin == s.clockOrigin
    decreases |inputs|
  {
    hide ServerStep;
    if inputs != [] {
      OriginStep(env, s, inputs[0].event, inputs[0].now, inputs[0].draws);
      OriginStays(env, ServerStep(env, s, inputs[0].event, inputs[0].now, inputs[0].draws).server, inputs[1..]);
    }
  }

  function Ms(origin: Time, t: Time): nat {
    Millis(Elapsed(t, origin))
  }

  // ---------------------------------------------------------------- cookies

  /** The server answers this hello with a retry. */
  predicate Asks(o: ServerOutcome) {
    o.reply.Ok? && |o.reply.actions| == 1 && o.reply.actions[0].SendFrame? && o.reply.actions[0].frame.RetryMsg?
  }

  /** A server asks only for want of a cookie, and its retry is the one for this hello,
      this peer and this time. */
  lemma RetryIssued(env: ServerEnv, s: Server, peer: PeerId, hello: ClientHello, now: Time, draws: ServerDraws)
    requires env.cfg.rateRefillInterval > 0
    ensures var o := HandleClientHello(env, s, peer, hello, now, draws);
            Asks(o) ==>
              && env.cfg.requireHandshakeCookie && hello.suite == env.cfg.suite && o.server.clockOrigin.Some?
              && o.reply.actions[0] == SendFrame(peer, RetryMsg(CreateRetry(env.psk, env.secret, hello, peer, Ms(o.server.clockOrigin.value, now))))
  {
    hide AdmitHello, CreateRetry, CookieVerifies;
    var s1 := s.(buckets := RateLimit.TryAttempt(Limits(env.cfg), s.buckets, peer, now).buckets);
    NeverAsks(env, s1, peer, hello, now, draws);
    NeverAsks(env, WithOrigin(s1, now), peer, hello, now, draws);
  }

  lemma NeverAsks(env: ServerEnv, s: Server, peer: PeerId, hello: ClientHello, now: Time, draws: ServerDraws)
    ensures !Asks(AdmitHello(env, s, peer, hello, now, draws))
  {
  }

  /** The client takes the retry to its hello and sends the hello again with it. */
  lemma RetryTaken(env: C.ClientEnv, c: C.Client, secret: nat, peer: PeerId, issuedAtMs: nat, at: Time)
    requires C.IsHandshaking(c) && c.handshake.Some? && c.handshake.value.phase.AwaitingServerHello?
    ensures var hello := c.handshake.value.hello; var retry := CreateRetry(env.psk, secret, hello, peer, issuedAtMs);
            var again := hello.(cookie := Some(CookieFor(secret, hello, peer, issuedAtMs)));
            var r := C.HandleRetry(env, c, retry, at);
            && r.reply == Ok([SendFrame(env.serverPeer, HelloMsg(again)), ScheduleTimer(env.cfg.handshakeRetryInterval)])
            && r.client.handshake.Some? && r.client.handshake.value.hello == again
  {
  }

  /** What the server does with a hello that bears a cookie it has issued. */
  lemma CookieReturned(env: ServerEnv, s: Server, hello: ClientHello, peer: PeerId, issuedAtMs: nat, from: PeerId, now: Time,
                       draws: ServerDraws)
    requires env.cfg.rateRefillInterval > 0 && env.cfg.requireHandshakeCookie && hello.suite == env.cfg.suite && s.clockOrigin.Some?
    ensures var again := hello.(cookie := Some(CookieFor(env.secret, hello, peer, issuedAtMs)));
            var a := RateLimit.TryAttempt(Limits(env.cfg), s.buckets, from, now); var s1 := s.(buckets := a.buckets);
            var nowMs := Ms(s.clockOrigin.value, now);
            HandleClientHello(env, s, from, again, now, draws)
            == if !a.allowed then ServerOutcome(s1, Err(HandshakeRateLimited))
               else if from == peer && issuedAtMs <= nowMs <= issuedAtMs + Millis(env.cfg.handshakeCookieLifetime)
               then AdmitHello(env, s1, from, again, now, draws)
               else ServerOutcome(s1, Ok([SendFrame(from, RetryMsg(CreateRetry(env.psk, env.secret, again, from, nowMs)))]))
  {
    hide AdmitHello, RateLimit.TryAttempt, CreateRetry;
  }

  /** The whole exchange. A server that requires a cookie asks for it; the client takes
      the retry and sends its hello again; and whatever the server has gone through
      in between, it lets that hello in if and only if the peer still has a token,
      the hello comes from the peer that was asked, and the time is from the issue
      through the issue plus the lifetime. Otherwise it asks again. */
  lemma CookieRoundTrip(cenv: C.ClientEnv, env: ServerEnv, c: C.Client, s: Server, peer: PeerId, asked: Time, draws: ServerDraws,
                        retried: Time, between: seq<Arrival>, from: PeerId, now: Time, later: ServerDraws)
    requires cenv.psk == env.psk && env.cfg.rateRefillInterval > 0
    requires C.IsHandshaking(c) && c.handshake.Some? && c.handshake.value.phase.AwaitingServerHello?
    requires Asks(HandleClientHello(env, s, peer, c.handshake.value.hello, asked, draws))
    ensures var o := HandleClientHello(env, s, peer, c.handshake.value.hello, asked, draws);
            var r := C.HandleRetry(cenv, c, o.reply.actions[0].frame.retry, retried);
            && r.reply.Ok? && |r.reply.actions| == 2 && r.reply.actions[0].SendFrame? && r.reply.actions[0].frame.HelloMsg?
            && o.server.clockOrigin.Some?
            && var again := r.reply.actions[0].frame.hello; var s1 := ServerRun(env, o.server, between);
               var a := RateLimit.TryAttempt(Limits(env.cfg), s1.buckets, from, now); var s2 := s1.(buckets := a.buckets);
               var issued := Ms(o.server.clockOrigin.value, asked); var nowMs := Ms(o.server.clockOrigin.value, now);
               HandleClientHello(env, s1, from, again, now, later)
               == if !a.allowed then ServerOutcome(s2, Err(HandshakeRateLimited))
                  else if from == peer && issued <= nowMs <= issued + Millis(env.cfg.handshakeCookieLifetime)
                  then AdmitHello(env, s2, from, again, now, later)
                  else ServerOutcome(s2, Ok([SendFrame(from, RetryMsg(CreateRetry(env.psk, env.secret, again, from, nowMs)))]))
  {
    hide HandleClientHello, C.HandleRetry, RateLimit.TryAttempt, AdmitHello, ServerRun, CookieFor;
    var hello := c.handshake.value.hello;
    var o := HandleClientHello(env, s, peer, hello, asked, draws);
    RetryIssued(env, s, peer, hello, asked, draws);
    var issued := Ms(o.server.clockOrigin.value, asked);
    RetryTaken(cenv, c, env.secret, peer, issued, retried);
    OriginStays(env, o.server, between);
    CookieReturned(env, ServerRun(env, o.server, between), hello, peer, issued, from, now, later);
  }

  /** A cookie that verifies was issued for this very hello, whatever cookie the
      hello carried at the time. */
  lemma CookieBinds(secret: nat, hello: ClientHello, prior: ClientHello, peer: PeerId, from: PeerId, nowMs: nat, lifetime: nat)
    requires hello.cookie.Some? && CookieVerifies(secret, hello, peer, nowMs, lifetime)
    requires hello.cookie.value == CookieFor(secret, prior, from, hello.cookie.value.issuedAtMs)
    ensures peer == from && hello.(cookie := None) == prior.(cookie := None)
  {
  }

  // ---------------------------------------------------------------- credentials

  /** A hello that presents a credential, once admitted, resumes the session that the
      credential names if and only if this server issued it, the time is within its
      validity, the conversation it names is still held there, and no other pending
      handshake claims that session. */
  lemma CredentialRoundTrip(env: ServerEnv, s: Server, secret: nat, prior: SessionId, conv: ConvId, issuedAtMs: nat, expiresAtMs: nat,
                            random: nat, peer: PeerId, hello: ClientHello, now: Time, draws: ServerDraws, sid: SessionId)
    requires hello.resumption == Some(IssueCredential(secret, prior, conv, issuedAtMs, expiresAtMs, random)) && conv != 0
    requires var o := AdmitHello(env, s, peer, hello, now, draws); sid in o.server.pending && sid !in s.pending
    ensures var o := AdmitHello(env, s, peer, hello, now, draws); var nowMs := NowMs(WithOrigin(s, now), now);
            o.server.pending[sid].resumeFrom
            == if secret == env.secret && issuedAtMs <= nowMs <= expiresAtMs && Recoverable(s, prior, conv) && !Claimed(s, prior)
               then Some(prior) else None
  {
    hide FindAttempt, FirstFresh, CreateServerHello;
    var s1 := WithOrigin(s, now);
    assert Recoverable(s1, prior, conv) == Recoverable(s, prior, conv) && Claimed(s1, prior) == Claimed(s, prior);
  }
}
