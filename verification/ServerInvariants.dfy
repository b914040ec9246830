/** What every event of the server engine keeps. */
module ServerInvariants {
  import opened Base
  import opened Protocol
  import opened Messages
  import opened Sessions
  import opened ServerSpec

  function KeyOf(s: ServerSession): SessionKey {
    s.sealer.key.session
  }

  /** A session identifier is pending, active or recoverable, never two of them. */
  ghost predicate IdsApart(s: Server) {
    && s.pending.Keys !! s.sessions.Keys
    && s.pending.Keys !! s.resumable.Keys
    && s.sessions.Keys !! s.resumable.Keys
    && 0 !in s.pending && 0 !in s.sessions && 0 !in s.resumable
  }

  ghost predicate PendingSound(env: ServerEnv, p: Pending, sid: SessionId) {
    && p.hello.suite == env.cfg.suite
    && p.serverHello == CreateServerHello(env.psk, p.hello, sid, p.resumeFrom.Some?,
                                          p.serverHello.body.serverNonce, p.serverHello.body.salt)
  }

  /** Two pending handshakes differ in peer or hello, and claim different
      sessions. */
  ghost predicate Distinct(pending: map<SessionId, Pending>, a: SessionId, b: SessionId) {
    a in pending && b in pending && a != b ==>
      && (pending[a].peer != pending[b].peer || pending[a].hello != pending[b].hello)
      && (pending[a].resumeFrom.Some? ==> pending[a].resumeFrom != pending[b].resumeFrom)
  }

  /** Pending handshakes are sound, differ in peer or hello, claim different
      sessions, and respect both limits. */
  ghost predicate PendingTable(env: ServerEnv, pending: map<SessionId, Pending>) {
    && (forall sid :: sid in pending ==> PendingSound(env, pending[sid], sid))
    && (forall a, b :: Distinct(pending, a, b))
    && |pending| <= env.cfg.maxPendingHandshakes
    && (forall peer :: |PendingOf(pending, peer)| <= env.cfg.maxPendingHandshakesPerPeer)
  }

  /** One session: its keys, its acknowledgement, its timer and its handles. */
  ghost predicate SessionSound(env: ServerEnv, s: ServerSession, sid: SessionId) {
    && s.sealer == Sealer(env.cfg.suite, ServerToClient, sid, DirectionKey(KeyOf(s), ServerToClient), s.sealer.next)
    && s.opener == Opener(env.cfg.suite, ClientToServer, sid, DirectionKey(KeyOf(s), ClientToServer), s.opener.window)
    && KeyOf(s).psk == env.psk
    && KeyOf(s).sid == sid
    && KeyOf(s).hello.suite == env.cfg.suite
    && KeyOf(s).serverHello.body.resumed == s.resumedFrom.Some?
    && s.sealer.next >= 1
    && s.ack == AckOf(s)
    && s.expiresAt == s.lastActivity + env.cfg.sessionIdleTimeout
    && |s.conversations| <= env.cfg.maxConversations
    && HandlesSound(s)
  }

  function AckOf(s: ServerSession): Frame {
    var header := Header(s.sealer.sid, 0, 0, HandshakeAck, None);
    RecordMsg(header, Sealed(s.sealer.key, s.sealer.dir, s.sealer.suite, header, Payload([])))
  }

  /** Handles name conversations of the session; all of them, unless it was
      resumed. */
  ghost predicate HandlesSound(s: ServerSession) {
    && Inverse(s.handles)
    && s.handles.byId.Keys <= s.conversations.Keys
    && (s.resumedFrom.None? ==> s.handles.byId.Keys == s.conversations.Keys)
  }

  /** The conversations held under a session identifier. */
  function Held(s: Server, sid: SessionId): set<ConvId> {
    (if sid in s.sessions then s.sessions[sid].conversations.Keys else {})
    + (if sid in s.resumable then s.resumable[sid].conversations.Keys else {})
  }

  /** A conversation is held in at most one place. */
  ghost predicate Apart(s: Server, a: SessionId, b: SessionId) {
    a != b ==> Held(s, a) !! Held(s, b)
  }

  ghost predicate ConversationsApart(s: Server) {
    forall a, b :: Apart(s, a, b)
  }

  ghost predicate SessionTable(env: ServerEnv, sessions: map<SessionId, ServerSession>) {
    && (forall sid :: sid in sessions ==> SessionSound(env, sessions[sid], sid))
    && |sessions| <= env.cfg.maxSessions
  }

  ghost predicate ResumableTable(env: ServerEnv, resumable: map<SessionId, Resumable>) {
    forall sid :: sid in resumable ==> |resumable[sid].conversations| <= env.cfg.maxConversations
  }

  ghost predicate ServerInv(env: ServerEnv, s: Server) {
    && IdsApart(s)
    && PendingTable(env, s.pending)
    && SessionTable(env, s.sessions)
    && ResumableTable(env, s.resumable)
    && ConversationsApart(s)
    && |s.buckets| <= env.cfg.maxPendingHandshakes
  }

  /** A drawn conversation identifier is held nowhere. */
  ghost predicate FreshConv(s: Server, draw: Option<ConvId>) {
    draw.Some? ==> forall sid :: draw.value !in Held(s, sid)
  }

  // ------------------------------------------------------ changing one session

  /** Replacing one session by a sound one, with at most a fresh conversation
      more, keeps the invariant. */
  lemma UpdateKeeps(env: ServerEnv, s: Server, sid: SessionId, session: ServerSession, draw: Option<ConvId>)
    requires ServerInv(env, s) && FreshConv(s, draw) && sid in s.sessions
    requires SessionSound(env, session, sid)
    requires forall c :: c in session.conversations ==> c in s.sessions[sid].conversations || Some(c) == draw
    ensures ServerInv(env, s.(sessions := s.sessions[sid := session]))
  {
    UpdateApart(s, sid, session, draw);
    UpdateTable(env, s.sessions, sid, session);
  }

  lemma UpdateTable(env: ServerEnv, sessions: map<SessionId, ServerSession>, sid: SessionId, session: ServerSession)
    requires SessionTable(env, sessions) && sid in sessions && SessionSound(env, session, sid)
    ensures SessionTable(env, sessions[sid := session])
    ensures sessions[sid := session].Keys == sessions.Keys
  {
    hide SessionSound;
    var more := sessions[sid := session];
    assert more.Keys == sessions.Keys;
    forall x | x in more
      ensures SessionSound(env, more[x], x)
    {
      if x != sid {
        assert more[x] == sessions[x];
      }
    }
  }

  lemma UpdateApart(s: Server, sid: SessionId, session: ServerSession, draw: Option<ConvId>)
    requires ConversationsApart(s) && FreshConv(s, draw) && sid in s.sessions && sid !in s.resumable
    requires forall c :: c in session.conversations ==> c in s.sessions[sid].conversations || Some(c) == draw
    ensures ConversationsApart(s.(sessions := s.sessions[sid := session]))
  {
    var s1 := s.(sessions := s.sessions[sid := session]);
    forall a, b
      ensures Apart(s1, a, b)
    {
      assert Apart(s, a, b);
      assert a != sid ==> Held(s1, a) == Held(s, a);
      assert b != sid ==> Held(s1, b) == Held(s, b);
      forall c | c in Held(s1, sid)
        ensures c in Held(s, sid) || Some(c) == draw
      {
      }
    }
  }

  lemma OriginKeeps(env: ServerEnv, s: Server, now: Time)
    requires ServerInv(env, s)
    ensures ServerInv(env, WithOrigin(s, now))
    ensures forall sid :: Held(WithOrigin(s, now), sid) == Held(s, sid)
  {
    hide PendingTable, SessionTable, ResumableTable, Apart;
    var s1 := WithOrigin(s, now);
    OriginApart(s, s1);
  }

  lemma OriginApart(s: Server, s1: Server)
    requires ConversationsApart(s) && s1.sessions == s.sessions && s1.resumable == s.resumable
    ensures ConversationsApart(s1) && forall sid :: Held(s1, sid) == Held(s, sid)
  {
    forall a, b
      ensures Apart(s1, a, b)
    {
      assert Apart(s, a, b);
    }
  }
}
