/** The server engine as the program keeps it: tables changed event by event, with
    loops over sessions, conversations and drawn identifiers. */
module ServerEngine {
  import opened Base
  import opened Protocol
  import opened Messages
  import opened Sessions
  import opened ServerSpec
  import RateLimit

  // ---------------------------------------------------------------- work on one session

  function Renewed(actions: seq<Action>, rest: Refreshed): Refreshed {
    if rest.RefreshedOk? then RefreshedOk(rest.session, actions + rest.actions) else rest
  }

  /** The loop that issues every conversation of the session a fresh credential. */
  method Refresh(env: ServerEnv, start: ServerSession, sid: SessionId, order: seq<ConvId>, issuedAtMs: nat, expiresAtMs: nat,
                 randoms: seq<nat>) returns (r: Refreshed)
    ensures r == RefreshAll(env, start, sid, order, issuedAtMs, expiresAtMs, randoms)
  {
    var session, actions, i := start, [], 0;
    while i < |order|
      invariant 0 <= i <= |order|
      invariant RefreshAll(env, start, sid, order, issuedAtMs, expiresAtMs, randoms)
             == Renewed(actions, RefreshAll(env, session, sid, order[i..], issuedAtMs, expiresAtMs, randoms))
    {
      assert order[i..][1..] == order[i + 1..];
      if order[i] !in session.handles.byId {
        return RefreshedPanic(session);
      }
      var credential := IssueCredential(env.secret, sid, order[i], issuedAtMs, expiresAtMs, RandomAt(randoms, |order| - i));
      var record := Seal(session.sealer, ResumptionCredential, Some(session.handles.byId[order[i]]), CredentialBytes(credential));
      if record.SealErr? {
        return RefreshedErr(session, record.error);
      }
      var sent := [SendFrame(session.peer, record.frame)];
      RenewedStep(actions, sent, RefreshAll(env, session.(sealer := record.sealer), sid, order[i + 1..], issuedAtMs, expiresAtMs, randoms));
      session := session.(sealer := record.sealer);
      actions := actions + sent;
      i := i + 1;
    }
    return RefreshedOk(session, actions);
  }

  lemma RenewedStep(actions: seq<Action>, sent: seq<Action>, rest: Refreshed)
    ensures Renewed(actions, Renewed(sent, rest)) == Renewed(actions + sent, rest)
  {
    if rest.RefreshedOk? {
      assert actions + (sent + rest.actions) == actions + sent + rest.actions;
    }
  }

  lemma RemoveOneMore(t: HandleTable, gone: set<ConvId>, c: ConvId)
    ensures Remove(RemoveAll(t, gone), c) == RemoveAll(t, gone + {c})
  {
    var left, right := Remove(RemoveAll(t, gone), c), RemoveAll(t, gone + {c});
    assert left.byId == right.byId;
    forall h | h in t.byHandle
      ensures h in left.byHandle <==> h in right.byHandle
    {
      if c in t.byId && t.byId[c] == h {
        assert c in gone + {c};
      }
    }
    assert left.byHandle == right.byHandle;
  }

  function IdleAmong(env: ServerEnv, session: ServerSession, order: seq<ConvId>, now: Time): set<ConvId> {
    set c | c in order && IdleConversation(env, session, c, now)
  }

  lemma IdleAmongNext(env: ServerEnv, session: ServerSession, order: seq<ConvId>, i: nat, now: Time)
    requires i < |order|
    ensures var gone := IdleAmong(env, session, order[..i], now);
            IdleAmong(env, session, order[..i + 1], now)
            == if IdleConversation(env, session, order[i], now) then gone + {order[i]} else gone
  {
    assert order[..i + 1] == order[..i] + [order[i]];
  }

  lemma IdleAmongNone(env: ServerEnv, session: ServerSession, order: seq<ConvId>, now: Time)
    ensures IdleAmong(env, session, order[..0], now) == {}
  {
  }

  /** The session without the conversations in `gone`. */
  function PrunedBy(session: ServerSession, gone: set<ConvId>): ServerSession {
    session.(conversations := session.conversations - gone, handles := RemoveAll(session.handles, gone))
  }

  lemma PrunedByNone(session: ServerSession)
    ensures PrunedBy(session, {}) == session
  {
    assert RemoveAll(session.handles, {}) == session.handles;
  }

  lemma PrunedByMore(session: ServerSession, gone: set<ConvId>, c: ConvId)
    ensures var s := PrunedBy(session, gone);
            PrunedBy(session, gone + {c}) == s.(conversations := s.conversations - {c}, handles := Remove(s.handles, c))
  {
    hide RemoveAll, Remove;
    RemoveOneMore(session.handles, gone, c);
    assert session.conversations - gone - {c} == session.conversations - (gone + {c});
  }

  lemma PrunedByAll(env: ServerEnv, session: ServerSession, order: seq<ConvId>, now: Time)
    requires Enumerates(order, session.conversations.Keys)
    ensures PrunedBy(session, IdleAmong(env, session, order, now)) == Pruned(env, session, now)
  {
    hide RemoveAll;
    assert IdleAmong(env, session, order, now) == IdleConversations(env, session, now);
  }

  lemma PruneActionsNext(env: ServerEnv, session: ServerSession, sid: SessionId, order: seq<ConvId>, i: nat, now: Time)
    requires i < |order|
    ensures PruneActions(env, session, sid, order[i..], now)
         == (if IdleConversation(env, session, order[i], now) then [ConversationClosed(Some(sid), order[i])] else [])
            + PruneActions(env, session, sid, order[i + 1..], now)
  {
    assert order[i..][1..] == order[i + 1..];
  }

  /** Removes the idle conversations of one session, one after the other. */
  method Prune(env: ServerEnv, start: ServerSession, sid: SessionId, order: seq<ConvId>, now: Time)
    returns (session: ServerSession, actions: seq<Action>)
    requires Enumerates(order, start.conversations.Keys)
    ensures session == Pruned(env, start, now)
    ensures actions == PruneActions(env, start, sid, order, now)
  {
    hide PrunedBy, IdleAmong, Pruned, IdleConversation, Enumerates, Remove;
    session, actions := start, [];
    var i := 0;
    PrunedByNone(start);
    IdleAmongNone(env, start, order, now);
    while i < |order|
      invariant 0 <= i <= |order|
      invariant session == PrunedBy(start, IdleAmong(env, start, order[..i], now))
      invariant PruneActions(env, start, sid, order, now) == actions + PruneActions(env, start, sid, order[i..], now)
    {
      IdleAmongNext(env, start, order, i, now);
      PruneActionsNext(env, start, sid, order, i, now);
      if IdleConversation(env, start, order[i], now) {
        PrunedByMore(start, IdleAmong(env, start, order[..i], now), order[i]);
        session := session.(conversations := session.conversations - {order[i]}, handles := Remove(session.handles, order[i]));
        actions := actions + [ConversationClosed(Some(sid), order[i])];
      }
      i := i + 1;
    }
    assert order[..i] == order;
    PrunedByAll(env, start, order, now);
  }

  // ---------------------------------------------------------------- records of one session

  method AcceptResume(env: ServerEnv, start: ServerSession, header: Header, plain: Plain, nowMs: nat)
    returns (session: ServerSession, reply: Reply)
    ensures SessionReply(session, reply) == ServerSpec.BindResumed(env, start, header, plain, nowMs)
  {
    session := start;
    if !plain.CredentialBytes? || !CredentialVerifies(env.secret, plain.credential, nowMs) {
      return session, Err(InvalidResumptionCredential);
    }
    var c := plain.credential.body;
    if session.resumedFrom != Some(c.session) || c.conversation !in session.conversations {
      return session, Err(UnknownConversation);
    }
    if header.handle.None? {
      return session, Err(UnknownConversation);
    }
    var binding := Bind(session.handles, header.handle.value, c.conversation);
    if binding.BindErr? {
      return session, Err(UnknownConversation);
    }
    return session.(handles := binding.table), Ok([]);
  }

  method AcceptData(env: ServerEnv, start: ServerSession, sid: SessionId, header: Header, plain: Plain,
                  now: Time, nowMs: nat, draws: ServerDraws)
    returns (session: ServerSession, reply: Reply)
    ensures SessionReply(session, reply) == ServerSpec.TakeData(env, start, sid, header, plain, now, nowMs, draws)
  {
    session := start;
    if header.handle.None? {
      return session, Err(UnknownConversation);
    }
    var h := header.handle.value;
    var isNew := h !in session.handles.byHandle;
    var conv: ConvId;
    var opening: seq<Action> := [];
    if isNew {
      if |session.conversations| >= env.cfg.maxConversations {
        return session, Err(ConversationCapacity);
      }
      if draws.conv.None? {
        return session, Err(RandomnessUnavailable);
      }
      conv := draws.conv.value;
      var binding := Bind(session.handles, h, conv);
      if binding.BindErr? {
        return session, Err(UnknownConversation);
      }
      session := session.(handles := binding.table, conversations := session.conversations[conv := now]);
      opening := [ConversationOpened(Some(sid), conv)];
    } else {
      conv := session.handles.byHandle[h];
      session := session.(conversations := session.conversations[conv := now]);
    }
    ghost var routed := session;
    var credentials: seq<Action> := [];
    var expiresAtMs := Min(nowMs + Millis(env.cfg.resumptionLifetime), U64_MAX);
    var credential := IssueCredential(env.secret, sid, conv, nowMs, expiresAtMs, RandomAt(draws.randoms, 0));
    if RefreshDue(env, session, now) {
      session := session.(lease := Some(Lease(credential, now + env.cfg.resumptionLifetime)));
      var refreshed := Refresh(env, session, sid, draws.refreshOrder, nowMs, expiresAtMs, draws.randoms);
      assert refreshed == Renew(env, routed, sid, h, conv, isNew, now, nowMs, draws);
      session := refreshed.session;
      if refreshed.RefreshedPanic? {
        return session, Panic;
      }
      if refreshed.RefreshedErr? {
        return session, Err(refreshed.error);
      }
      credentials := refreshed.actions;
    } else if isNew {
      var record := Seal(session.sealer, ResumptionCredential, Some(h), CredentialBytes(credential));
      if record.SealErr? {
        return session, Err(record.error);
      }
      session := session.(sealer := record.sealer);
      credentials := [SendFrame(session.peer, record.frame)];
    }
    assert Renew(env, routed, sid, h, conv, isNew, now, nowMs, draws) == RefreshedOk(session, credentials);
    return session, Ok(opening + credentials + [DeliverToUpstream(sid, conv, PayloadOf(plain)), ScheduleTimer(env.cfg.sessionIdleTimeout)]);
  }

  // ---------------------------------------------------------------- timers, visit by visit

  /** The sessions once those in `done` have been pruned. */
  function PrunedAll(env: ServerEnv, sessions: map<SessionId, ServerSession>, done: seq<SessionId>, now: Time)
    : map<SessionId, ServerSession>
  {
    map sid | sid in sessions :: if sid in done then Pruned(env, sessions[sid], now) else sessions[sid]
  }

  lemma PrunedAllNone(env: ServerEnv, sessions: map<SessionId, ServerSession>, now: Time)
    ensures PrunedAll(env, sessions, [], now) == sessions
  {
  }

  lemma PrunedAllNext(env: ServerEnv, sessions: map<SessionId, ServerSession>, order: seq<SessionId>, i: nat, now: Time)
    requires Enumerates(order, sessions.Keys) && i < |order|
    ensures order[i] in sessions
    ensures var before := PrunedAll(env, sessions, order[..i], now);
            && order[i] in before && before[order[i]] == sessions[order[i]]
            && PrunedAll(env, sessions, order[..i + 1], now) == before[order[i] := Pruned(env, sessions[order[i]], now)]
  {
    hide Pruned;
    assert order[i] in order;
    assert order[..i + 1] == order[..i] + [order[i]];
  }

  /** The sessions once those of `done` that are over have been taken out. */
  function Remaining(env: ServerEnv, sessions: map<SessionId, ServerSession>, done: seq<SessionId>, now: Time)
    : map<SessionId, ServerSession>
  {
    map sid | sid in sessions && !(sid in done && SessionOver(env, sessions[sid], now)) :: sessions[sid]
  }

  /** The recovery state they leave behind. */
  function Retired(env: ServerEnv, sessions: map<SessionId, ServerSession>, done: seq<SessionId>, now: Time)
    : map<SessionId, Resumable>
  {
    map sid | sid in sessions && sid in done && SessionOver(env, sessions[sid], now) && sessions[sid].conversations != map[]
      :: Resumable(sessions[sid].conversations, now + env.cfg.resumptionLifetime)
  }

  lemma RetiredNone(env: ServerEnv, sessions: map<SessionId, ServerSession>, now: Time)
    ensures Remaining(env, sessions, [], now) == sessions
    ensures Retired(env, sessions, [], now) == map[]
  {
  }

  lemma RemainingNext(env: ServerEnv, sessions: map<SessionId, ServerSession>, order: seq<SessionId>, i: nat, now: Time)
    requires Enumerates(order, sessions.Keys) && i < |order|
    ensures order[i] in sessions
    ensures var before, after := Remaining(env, sessions, order[..i], now), Remaining(env, sessions, order[..i + 1], now);
            && order[i] in before && before[order[i]] == sessions[order[i]]
            && after == if SessionOver(env, sessions[order[i]], now) then before - {order[i]} else before
  {
    hide SessionOver;
    assert order[i] in order;
    assert order[..i + 1] == order[..i] + [order[i]];
  }

  lemma RetiredNext(env: ServerEnv, sessions: map<SessionId, ServerSession>, order: seq<SessionId>, i: nat, now: Time)
    requires i < |order| && order[i] in sessions
    ensures var before, after := Retired(env, sessions, order[..i], now), Retired(env, sessions, order[..i + 1], now);
            after == if SessionOver(env, sessions[order[i]], now) && sessions[order[i]].conversations != map[]
                     then before[order[i] := Resumable(sessions[order[i]].conversations, now + env.cfg.resumptionLifetime)]
                     else before
  {
    hide SessionOver;
    assert order[..i + 1] == order[..i] + [order[i]];
  }

  lemma JoinLast(a: map<SessionId, Resumable>, b: map<SessionId, Resumable>, sid: SessionId, r: Resumable)
    ensures a + b[sid := r] == (a + b)[sid := r]
  {
  }

  /** The recovery state once what has run out among `done` has been dropped. */
  function Unexpired(resumable: map<SessionId, Resumable>, done: seq<SessionId>, now: Time): map<SessionId, Resumable> {
    map sid | sid in resumable && !(sid in done && now >= resumable[sid].expiresAt) :: resumable[sid]
  }

  lemma UnexpiredNone(resumable: map<SessionId, Resumable>, now: Time)
    ensures Unexpired(resumable, [], now) == resumable
  {
  }

  lemma UnexpiredNext(resumable: map<SessionId, Resumable>, order: seq<SessionId>, i: nat, now: Time)
    requires Enumerates(order, resumable.Keys) && i < |order|
    ensures order[i] in resumable
    ensures var before := Unexpired(resumable, order[..i], now);
            && order[i] in before && before[order[i]] == resumable[order[i]]
            && Unexpired(resumable, order[..i + 1], now)
               == if now >= resumable[order[i]].expiresAt then before - {order[i]} else before
  {
    assert order[i] in order;
    assert order[..i + 1] == order[..i] + [order[i]];
  }

  lemma PrunedAllAt(env: ServerEnv, sessions: map<SessionId, ServerSession>, order: seq<SessionId>, now: Time)
    requires Enumerates(order, sessions.Keys)
    ensures var pruned := PrunedAll(env, sessions, order, now);
            && pruned.Keys == sessions.Keys
            && (forall sid :: sid in sessions ==> sid in order && pruned[sid] == Pruned(env, sessions[sid], now))
  {
    hide Pruned;
  }

  lemma OverPruned(env: ServerEnv, session: ServerSession, now: Time)
    ensures SessionOver(env, Pruned(env, session, now), now) == SessionOver(env, session, now)
    ensures Pruned(env, session, now).peer == session.peer
  {
    hide RemoveAll, IdleConversations;
  }

  /** Pruning and then retiring amounts to the recovery state of the specification. */
  lemma RecoveriesAgree(env: ServerEnv, s: Server, order: seq<SessionId>, now: Time)
    requires Enumerates(order, s.sessions.Keys)
    ensures s.resumable + Retired(env, PrunedAll(env, s.sessions, order, now), order, now) == Recoveries(env, s, now)
  {
    hide Pruned, PrunedAll, SessionOver, Enumerates;
    var pruned := PrunedAll(env, s.sessions, order, now);
    PrunedAllAt(env, s.sessions, order, now);
    forall sid | sid in s.sessions
      ensures SessionOver(env, pruned[sid], now) == SessionOver(env, s.sessions[sid], now)
    {
      OverPruned(env, s.sessions[sid], now);
    }
  }

  lemma RemainingAgree(env: ServerEnv, s: Server, order: seq<SessionId>, now: Time, draws: ServerDraws)
    requires Enumerates(order, s.sessions.Keys)
    ensures Remaining(env, PrunedAll(env, s.sessions, order, now), order, now) == ServerSpec.Expire(env, s, now, draws).server.sessions
  {
    hide Pruned, PrunedAll, SessionOver, Enumerates, Recoveries, PruneAllActions, OverActions, RecoveryActions;
    var pruned := PrunedAll(env, s.sessions, order, now);
    PrunedAllAt(env, s.sessions, order, now);
    forall sid | sid in s.sessions
      ensures SessionOver(env, pruned[sid], now) == SessionOver(env, s.sessions[sid], now)
    {
      OverPruned(env, s.sessions[sid], now);
    }
  }

  lemma UnexpiredAgree(env: ServerEnv, s: Server, now: Time, draws: ServerDraws)
    requires Enumerates(draws.resumableOrder, Recoveries(env, s, now).Keys)
    ensures Unexpired(Recoveries(env, s, now), draws.resumableOrder, now) == ServerSpec.Expire(env, s, now, draws).server.resumable
  {
    hide Recoveries, Pruned, PruneAllActions, OverActions, RecoveryActions;
  }

  lemma PruneAllActionsNext(env: ServerEnv, s: Server, order: seq<SessionId>, i: nat, draws: ServerDraws, now: Time)
    requires i < |order| && order[i] in s.sessions
    ensures PruneAllActions(env, s, order[i..], draws, now)
         == PruneActions(env, s.sessions[order[i]], order[i], ConvOrder(draws, order[i]), now)
            + PruneAllActions(env, s, order[i + 1..], draws, now)
  {
    hide PruneActions;
    assert order[i..][1..] == order[i + 1..];
  }

  lemma {:induction false} PruneAllActionsSame(env: ServerEnv, s: Server, t: Server, order: seq<SessionId>, draws: ServerDraws,
                                               now: Time)
    requires s.sessions == t.sessions
    ensures PruneAllActions(env, s, order, draws, now) == PruneAllActions(env, t, order, draws, now)
  {
    hide PruneActions;
    if order != [] {
      PruneAllActionsSame(env, s, t, order[1..], draws, now);
    }
  }

  lemma OverActionsNext(env: ServerEnv, s: Server, order: seq<SessionId>, i: nat, now: Time)
    requires i < |order| && order[i] in s.sessions
    ensures OverActions(env, s, order[i..], now)
         == (if SessionOver(env, s.sessions[order[i]], now) then [SessionClosed(s.sessions[order[i]].peer, order[i])] else [])
            + OverActions(env, s, order[i + 1..], now)
  {
    hide SessionOver;
    assert order[i..][1..] == order[i + 1..];
  }

  lemma {:induction false} OverActionsPruned(env: ServerEnv, s: Server, t: Server, order: seq<SessionId>, done: seq<SessionId>,
                                             now: Time)
    requires t.sessions == PrunedAll(env, s.sessions, done, now)
    ensures OverActions(env, t, order, now) == OverActions(env, s, order, now)
  {
    hide RemoveAll, IdleConversations;
    if order != [] {
      OverActionsPruned(env, s, t, order[1..], done, now);
    }
  }

  class Engine {
    const env: ServerEnv
    var clockOrigin: Option<Time>
    var pending: map<SessionId, Pending>
    var sessions: map<SessionId, ServerSession>
    var resumable: map<SessionId, Resumable>
    var buckets: map<PeerId, RateLimit.Bucket>

    function View(): Server
      reads this
    {
      Server(clockOrigin, pending, sessions, resumable, buckets)
    }

    constructor (env: ServerEnv)
      ensures this.env == env && View() == NewServer()
    {
      this.env := env;
      clockOrigin := None;
      pending, sessions, resumable, buckets := map[], map[], map[], map[];
    }

    /** Starts the clock at its first use and reads it. */
    method ReadClock(now: Time) returns (ms: nat)
      modifies `clockOrigin
      ensures View() == WithOrigin(old(View()), now) && ms == NowMs(View(), now)
    {
      if clockOrigin.None? {
        clockOrigin := Some(now);
      }
      return Millis(Elapsed(now, clockOrigin.value));
    }

    // -------------------------------------------------------------- hello

    method AllowHandshakeAttempt(peer: PeerId, now: Time) returns (allowed: bool)
      requires env.cfg.rateRefillInterval > 0
      modifies `buckets
      ensures RateLimit.Attempt(buckets, allowed) == RateLimit.TryAttempt(Limits(env.cfg), old(buckets), peer, now)
    {
      if peer !in buckets && |buckets| >= env.cfg.maxPendingHandshakes {
        return false;
      }
      if peer !in buckets {
        buckets := buckets[peer := RateLimit.Bucket(env.cfg.rateLimitBurst, now)];
      }
      var bucket := buckets[peer];
      var refill := Elapsed(now, bucket.lastRefillAt) / env.cfg.rateRefillInterval;
      if refill != 0 {
        bucket := RateLimit.Bucket(Min(RateLimit.SaturatingAdd(bucket.tokens, refill), env.cfg.rateLimitBurst), now);
        buckets := buckets[peer := bucket];
      }
      if bucket.tokens == 0 {
        return false;
      }
      buckets := buckets[peer := bucket.(tokens := bucket.tokens - 1)];
      return true;
    }

    /** An earlier attempt that this hello repeats. */
    method Find(order: seq<SessionId>, peer: PeerId, hello: ClientHello) returns (found: Option<SessionId>)
      ensures found == FindAttempt(View(), order, peer, hello)
    {
      var i := 0;
      while i < |order|
        invariant 0 <= i <= |order|
        invariant FindAttempt(View(), order, peer, hello) == FindAttempt(View(), order[i..], peer, hello)
      {
        if order[i] in pending && pending[order[i]].peer == peer && pending[order[i]].hello == hello {
          return Some(order[i]);
        }
        assert order[i..][1..] == order[i + 1..];
        i := i + 1;
      }
      return None;
    }

    /** Draws session identifiers until one is unused. */
    method DrawSession(sids: seq<SessionId>) returns (sid: Option<SessionId>)
      ensures sid == FirstFresh(View(), sids)
    {
      var i := 0;
      while i < |sids|
        invariant 0 <= i <= |sids|
        invariant FirstFresh(View(), sids) == FirstFresh(View(), sids[i..])
      {
        var candidate := sids[i];
        if candidate != 0 && candidate !in pending && candidate !in sessions && candidate !in resumable {
          return Some(candidate);
        }
        assert sids[i..][1..] == sids[i + 1..];
        i := i + 1;
      }
      return None;
    }

    method AdmitHello(peer: PeerId, hello: ClientHello, now: Time, draws: ServerDraws) returns (reply: Reply)
      modifies `clockOrigin, `pending
      ensures ServerOutcome(View(), reply) == ServerSpec.AdmitHello(env, old(View()), peer, hello, now, draws)
    {
      var found := Find(draws.pendingOrder, peer, hello);
      if found.Some? {
        return Ok([SendFrame(peer, ServerHelloMsg(found.value, pending[found.value].serverHello))]);
      }
      if |pending| >= env.cfg.maxPendingHandshakes {
        return Err(PendingHandshakeCapacity);
      }
      if |PendingOf(pending, peer)| >= env.cfg.maxPendingHandshakesPerPeer {
        return Err(PerPeerPendingHandshakeCapacity);
      }
      var sid := DrawSession(draws.sids);
      if sid.None? {
        return Err(RandomnessUnavailable);
      }
      var nowMs := ReadClock(now);
      if draws.hello.None? {
        return Err(RandomnessUnavailable);
      }
      var prior := ResumeFrom(env, View(), hello, nowMs);
      var sh := CreateServerHello(env.psk, hello, sid.value, prior.Some?, draws.hello.value.nonce, draws.hello.value.salt);
      pending := pending[sid.value := Pending(peer, now, hello, sh, prior)];
      return Ok([SendFrame(peer, ServerHelloMsg(sid.value, sh)), ScheduleTimer(env.cfg.handshakeTimeout)]);
    }

    method HandleClientHello(peer: PeerId, hello: ClientHello, now: Time, draws: ServerDraws) returns (reply: Reply)
      requires env.cfg.rateRefillInterval > 0
      modifies `clockOrigin, `pending, `buckets
      ensures ServerOutcome(View(), reply) == ServerSpec.HandleClientHello(env, old(View()), peer, hello, now, draws)
    {
      if hello.suite != env.cfg.suite {
        return Err(CipherSuiteMismatch);
      }
      var allowed := AllowHandshakeAttempt(peer, now);
      if !allowed {
        return Err(HandshakeRateLimited);
      }
      if env.cfg.requireHandshakeCookie {
        var nowMs := ReadClock(now);
        if !CookieVerifies(env.secret, hello, peer, nowMs, env.cfg.handshakeCookieLifetime) {
          return Ok([SendFrame(peer, RetryMsg(CreateRetry(env.psk, env.secret, hello, peer, nowMs)))]);
        }
      }
      reply := AdmitHello(peer, hello, now, draws);
    }

    // -------------------------------------------------------------- finish

    method HandleClientFinish(peer: PeerId, sid: SessionId, finish: ClientFinish, now: Time) returns (reply: Reply)
      modifies `pending, `sessions, `resumable
      ensures ServerOutcome(View(), reply) == ServerSpec.HandleClientFinish(env, old(View()), peer, sid, finish, now)
    {
      if sid in sessions {
        if sessions[sid].peer != peer {
          return Err(UnexpectedPeer);
        }
        if sessions[sid].finish != FinishMsg(sid, finish) {
          return Err(AuthenticationFailed);
        }
        return Ok([SendFrame(peer, sessions[sid].ack)]);
      }
      if sid !in pending {
        return Err(UnknownPendingHandshake);
      }
      var p := pending[sid];
      if p.peer != peer {
        return Err(UnexpectedPeer);
      }
      if |sessions| >= env.cfg.maxSessions && !(p.resumeFrom.Some? && p.resumeFrom.value in sessions) {
        return Err(SessionCapacity);
      }
      if sid == 0 {
        return Err(Malformed);
      }
      var problem := FinishProblem(env.psk, finish, p.hello, p.serverHello, sid);
      if problem.Some? {
        return Err(problem.value);
      }
      var ack := SealAck(env, p, sid);
      var conversations: map<ConvId, Time> := map[];
      if p.resumeFrom.Some? {
        if p.resumeFrom.value in sessions {
          conversations := sessions[p.resumeFrom.value].conversations;
          sessions := sessions - {p.resumeFrom.value};
        } else {
          if p.resumeFrom.value in resumable {
            conversations := resumable[p.resumeFrom.value].conversations;
          }
          resumable := resumable - {p.resumeFrom.value};
        }
      }
      sessions := sessions[sid := NewServerSession(env, p, sid, FinishMsg(sid, finish), ack, conversations, now)];
      pending := pending - {sid};
      var actions := [SendFrame(peer, ack.frame), SessionEstablished(peer, sid, env.cfg.suite, p.resumeFrom.Some?)];
      if p.resumeFrom.Some? {
        actions := actions + [SessionResumed(peer, p.resumeFrom.value, sid)];
      }
      actions := actions + [ScheduleTimer(env.cfg.sessionIdleTimeout)];
      assert actions == FinishActions(env, p, sid, peer);
      return Ok(actions);
    }

    // -------------------------------------------------------------- records

    method HandleRecord(peer: PeerId, frame: Frame, now: Time, draws: ServerDraws) returns (reply: Reply)
      requires frame.RecordMsg?
      modifies `clockOrigin, `sessions
      ensures ServerOutcome(View(), reply) == ServerSpec.HandleRecord(env, old(View()), peer, frame, now, draws)
    {
      var nowMs := ReadClock(now);
      var sid := frame.header.sid;
      if sid !in sessions {
        return Err(UnknownSession);
      }
      if sessions[sid].peer != peer {
        return Err(UnexpectedPeer);
      }
      var result := Open(sessions[sid].opener, frame);
      if result.OpenErr? {
        assert sessions == sessions[sid := sessions[sid]];
        return Err(result.error);
      }
      var session := Touch(env, sessions[sid].(opener := result.opener), now);
      if frame.header.ftype.ResumeConversation? {
        session, reply := AcceptResume(env, session, frame.header, result.plain, nowMs);
      } else if !frame.header.ftype.Data? {
        reply := Ok([]);
      } else {
        session, reply := AcceptData(env, session, sid, frame.header, result.plain, now, nowMs, draws);
      }
      sessions := sessions[sid := session];
    }

    method HandleTunnel(peer: PeerId, frame: Frame, now: Time, draws: ServerDraws) returns (reply: Reply)
      requires env.cfg.rateRefillInterval > 0
      modifies this
      ensures ServerOutcome(View(), reply) == ServerSpec.HandleTunnel(env, old(View()), peer, frame, now, draws)
    {
      match frame
      case HelloMsg(hello) => reply := HandleClientHello(peer, hello, now, draws);
      case FinishMsg(sid, finish) => reply := HandleClientFinish(peer, sid, finish, now);
      case RecordMsg(header, _) =>
        if !IsProtected(header.ftype) {
          return Err(UnexpectedMessage);
        }
        reply := HandleRecord(peer, frame, now, draws);
      case Undecodable => reply := Err(Malformed);
      case _ => reply := Err(UnexpectedMessage);
    }

    // -------------------------------------------------------------- upstream and closing

    method HandleUpstream(sid: SessionId, conv: ConvId, payload: seq<byte>, now: Time) returns (reply: Reply)
      modifies `sessions
      ensures ServerOutcome(View(), reply) == ServerSpec.HandleUpstream(env, old(View()), sid, conv, payload, now)
    {
      if |payload| > env.cfg.maxFramePayload {
        return Err(PayloadTooLarge);
      }
      if sid !in sessions {
        return Err(UnknownSession);
      }
      if conv !in sessions[sid].handles.byId {
        return Err(UnknownConversation);
      }
      var session := Touch(env, sessions[sid], now);
      var record := Seal(session.sealer, Data, Some(session.handles.byId[conv]), Payload(payload));
      if record.SealErr? {
        sessions := sessions[sid := session];
        return Err(record.error);
      }
      sessions := sessions[sid := session.(sealer := record.sealer)];
      return Ok([SendFrame(session.peer, record.frame), ScheduleTimer(env.cfg.sessionIdleTimeout)]);
    }

    method Close(sid: SessionId, conv: ConvId) returns (reply: Reply)
      modifies `sessions
      ensures ServerOutcome(View(), reply) == HandleClose(old(View()), sid, conv)
    {
      if sid !in sessions {
        return Err(UnknownSession);
      }
      if conv !in sessions[sid].conversations {
        return Err(UnknownConversation);
      }
      sessions := sessions[sid := sessions[sid].(conversations := sessions[sid].conversations - {conv},
                                                 handles := Remove(sessions[sid].handles, conv))];
      return Ok([ConversationClosed(Some(sid), conv)]);
    }

    // -------------------------------------------------------------- timers

    method PruneAll(order: seq<SessionId>, draws: ServerDraws, now: Time) returns (actions: seq<Action>)
      requires Enumerates(order, sessions.Keys)
      requires forall sid :: sid in sessions ==> Enumerates(ConvOrder(draws, sid), sessions[sid].conversations.Keys)
      modifies `sessions
      ensures sessions == PrunedAll(env, old(sessions), order, now)
      ensures actions == PruneAllActions(env, old(View()), order, draws, now)
    {
      actions := [];
      var i := 0;
      hide PrunedAll, Pruned, PruneActions, Enumerates, ConvOrder;
      PrunedAllNone(env, sessions, now);
      assert order[..0] == [];
      while i < |order|
        invariant 0 <= i <= |order|
        invariant sessions == PrunedAll(env, old(sessions), order[..i], now)
        invariant PruneAllActions(env, old(View()), order, draws, now)
               == actions + PruneAllActions(env, old(View()), order[i..], draws, now)
      {
        var sid := order[i];
        PrunedAllNext(env, old(sessions), order, i, now);
        PruneAllActionsNext(env, old(View()), order, i, draws, now);
        var session, closed := Prune(env, sessions[sid], sid, ConvOrder(draws, sid), now);
        sessions := sessions[sid := session];
        actions := actions + closed;
        i := i + 1;
      }
      assert order[..i] == order;
    }

    /** Takes the sessions that have gone idle out, leaving recovery state behind
        for those that still hold conversations. */
    method CloseOver(order: seq<SessionId>, now: Time) returns (actions: seq<Action>)
      requires Enumerates(order, sessions.Keys)
      modifies `sessions, `resumable
      ensures sessions == Remaining(env, old(sessions), order, now)
      ensures resumable == old(resumable) + Retired(env, old(sessions), order, now)
      ensures actions == OverActions(env, old(View()), order, now)
    {
      actions := [];
      var i := 0;
      hide Remaining, Retired, SessionOver, Enumerates;
      RetiredNone(env, sessions, now);
      assert order[..0] == [];
      assert resumable + map[] == resumable;
      while i < |order|
        invariant 0 <= i <= |order|
        invariant sessions == Remaining(env, old(sessions), order[..i], now)
        invariant resumable == old(resumable) + Retired(env, old(sessions), order[..i], now)
        invariant OverActions(env, old(View()), order, now) == actions + OverActions(env, old(View()), order[i..], now)
      {
        var sid := order[i];
        RemainingNext(env, old(sessions), order, i, now);
        RetiredNext(env, old(sessions), order, i, now);
        OverActionsNext(env, old(View()), order, i, now);
        var session := sessions[sid];
        JoinLast(old(resumable), Retired(env, old(sessions), order[..i], now), sid,
                 Resumable(session.conversations, now + env.cfg.resumptionLifetime));
        if SessionOver(env, session, now) {
          sessions := sessions - {sid};
          if session.conversations != map[] {
            resumable := resumable[sid := Resumable(session.conversations, now + env.cfg.resumptionLifetime)];
          }
          actions := actions + [SessionClosed(session.peer, sid)];
        }
        i := i + 1;
      }
      assert order[..i] == order;
    }

    method ExpireRecoveries(order: seq<SessionId>, now: Time) returns (actions: seq<Action>)
      requires Enumerates(order, resumable.Keys)
      modifies `resumable
      ensures resumable == Unexpired(old(resumable), order, now)
      ensures actions == RecoveryActions(old(resumable), order, now)
    {
      hide Unexpired, Enumerates;
      actions := [];
      var i := 0;
      UnexpiredNone(resumable, now);
      assert order[..0] == [];
      while i < |order|
        invariant 0 <= i <= |order|
        invariant resumable == Unexpired(old(resumable), order[..i], now)
        invariant RecoveryActions(old(resumable), order, now) == actions + RecoveryActions(old(resumable), order[i..], now)
      {
        var sid := order[i];
        UnexpiredNext(old(resumable), order, i, now);
        assert order[i..][1..] == order[i + 1..];
        if now >= resumable[sid].expiresAt {
          resumable := resumable - {sid};
          actions := actions + [SessionRecoveryExpired(sid)];
        }
        i := i + 1;
      }
      assert order[..i] == order;
    }

    method Expire(now: Time, draws: ServerDraws) returns (actions: seq<Action>)
      requires VisitsAll(env, View(), now, draws)
      modifies this
      ensures ServerOutcome(View(), Ok(actions)) == ServerSpec.Expire(env, old(View()), now, draws)
    {
      hide Recoveries, PrunedAll, Remaining, Retired, Unexpired, Enumerates, Pruned, SessionOver;
      pending := map sid | sid in pending && Elapsed(now, pending[sid].createdAt) < env.cfg.handshakeTimeout :: pending[sid];
      PruneAllActionsSame(env, old(View()), View(), draws.sessionOrder, draws, now);
      actions := PruneAll(draws.sessionOrder, draws, now);
      PrunedAllAt(env, old(sessions), draws.sessionOrder, now);
      OverActionsPruned(env, old(View()), View(), draws.sessionOrder, draws.sessionOrder, now);
      var closed := CloseOver(draws.sessionOrder, now);
      RecoveriesAgree(env, old(View()), draws.sessionOrder, now);
      RemainingAgree(env, old(View()), draws.sessionOrder, now, draws);
      UnexpiredAgree(env, old(View()), now, draws);
      var expired := ExpireRecoveries(draws.resumableOrder, now);
      buckets := RateLimit.Evict(Limits(env.cfg), buckets, now);
      actions := actions + closed + expired;
    }

    // -------------------------------------------------------------- one event

    /** One event: exactly the step the theorems about the server speak of. */
    method Handle(event: ServerEvent, now: Time, draws: ServerDraws) returns (reply: Reply)
      requires env.cfg.rateRefillInterval > 0
      requires event.TimeAdvanced? ==> VisitsAll(env, View(), event.at, draws)
      modifies this
      ensures ServerOutcome(View(), reply) == ServerStep(env, old(View()), event, now, draws)
    {
      match event
      case TunnelFrame(from, frame) =>
        reply := HandleTunnel(from, frame, now, draws);
      case ServerDatagram(sid, conv, payload) =>
        reply := HandleUpstream(sid, conv, payload, now);
      case CloseConversation(session, conv) =>
        if session.None? {
          return Err(UnknownSession);
        }
        reply := Close(session.value, conv);
      case TimeAdvanced(at) =>
        var actions := Expire(at, draws);
        reply := Ok(actions);
      case ClientOnly =>
        reply := Err(InvalidRole);
    }
  }
}
