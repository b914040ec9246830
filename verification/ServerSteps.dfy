/** Every event keeps the server's invariants. */
module ServerSteps {
  import opened Base
  import opened Protocol
  import opened Config
  import opened Messages
  import opened Sessions
  import opened ServerSpec
  import opened ServerInvariants
  import RateLimit

  // ---------------------------------------------------------------- hello

  lemma PendingAdded(env: ServerEnv, pending: map<SessionId, Pending>, sid: SessionId, p: Pending)
    requires PendingTable(env, pending) && sid !in pending && PendingSound(env, p, sid)
    requires |pending| < env.cfg.maxPendingHandshakes && |PendingOf(pending, p.peer)| < env.cfg.maxPendingHandshakesPerPeer
    requires forall a :: a in pending ==> pending[a].peer != p.peer || pending[a].hello != p.hello
    requires forall a :: a in pending && p.resumeFrom.Some? ==> pending[a].resumeFrom != p.resumeFrom
    ensures PendingTable(env, pending[sid := p])
  {
    var q := pending[sid := p];
    forall a, b
      ensures Distinct(q, a, b)
    {
      assert Distinct(pending, a, b);
    }
    forall peer
      ensures |PendingOf(q, peer)| <= env.cfg.maxPendingHandshakesPerPeer
    {
      if peer == p.peer {
        assert PendingOf(q, peer) == PendingOf(pending, peer) + {sid};
      } else {
        assert PendingOf(q, peer) == PendingOf(pending, peer);
      }
    }
  }

  lemma PendingReduced(env: ServerEnv, pending: map<SessionId, Pending>, q: map<SessionId, Pending>)
    requires PendingTable(env, pending)
    requires q.Keys <= pending.Keys && forall sid :: sid in q ==> q[sid] == pending[sid]
    ensures PendingTable(env, q)
  {
    SubsetSize(q.Keys, pending.Keys);
    forall a, b
      ensures Distinct(q, a, b)
    {
      assert Distinct(pending, a, b);
    }
    forall peer
      ensures |PendingOf(q, peer)| <= env.cfg.maxPendingHandshakesPerPeer
    {
      SubsetSize(PendingOf(q, peer), PendingOf(pending, peer));
    }
  }

  lemma TryAttemptSize(l: RateLimit.Limits, buckets: map<PeerId, RateLimit.Bucket>, peer: PeerId, now: Time)
    requires l.refill > 0 && |buckets| <= l.capacity
    ensures |RateLimit.TryAttempt(l, buckets, peer, now).buckets| <= l.capacity
  {
    var a := RateLimit.TryAttempt(l, buckets, peer, now);
    if peer in buckets {
      assert a.buckets.Keys == buckets.Keys;
    }
  }

  lemma SameHeldKeeps(env: ServerEnv, s: Server, s1: Server)
    requires ServerInv(env, s)
    requires s1.pending == s.pending && s1.sessions == s.sessions && s1.resumable == s.resumable
    requires |s1.buckets| <= env.cfg.maxPendingHandshakes
    ensures ServerInv(env, s1)
  {
    SameApart(s, s1);
  }

  lemma SameApart(s: Server, s1: Server)
    requires ConversationsApart(s) && s1.sessions == s.sessions && s1.resumable == s.resumable
    ensures ConversationsApart(s1)
  {
    forall a, b
      ensures Apart(s1, a, b)
    {
      assert Apart(s, a, b);
    }
  }

  /** A handshake admitted under a fresh identifier. */
  lemma PendsKeeps(env: ServerEnv, s: Server, sid: SessionId, p: Pending)
    requires ServerInv(env, s) && Fresh(s, sid) && PendingTable(env, s.pending[sid := p])
    ensures ServerInv(env, s.(pending := s.pending[sid := p]))
  {
    hide PendingTable, SessionTable, ResumableTable, Apart;
    SameApart(s, s.(pending := s.pending[sid := p]));
  }

  lemma AdmitHelloKeeps(env: ServerEnv, s: Server, peer: PeerId, hello: ClientHello, now: Time, draws: ServerDraws)
    requires ServerInv(env, s) && hello.suite == env.cfg.suite && Enumerates(draws.pendingOrder, s.pending.Keys)
    ensures ServerInv(env, AdmitHello(env, s, peer, hello, now, draws).server)
  {
    hide SessionTable, ResumableTable, Apart, Distinct, PendingOf, PendingTable;
    var o := AdmitHello(env, s, peer, hello, now, draws);
    var s1 := WithOrigin(s, now);
    OriginKeeps(env, s, now);
    if o.server != s && o.server != s1 {
      var sid := FirstFresh(s, draws.sids).value;
      PendingAdded(env, s.pending, sid, o.server.pending[sid]);
      PendsKeeps(env, s1, sid, o.server.pending[sid]);
    }
  }

  lemma HandleClientHelloKeeps(env: ServerEnv, s: Server, peer: PeerId, hello: ClientHello, now: Time, draws: ServerDraws)
    requires ServerInv(env, s) && ValidConfig(env.cfg) && Enumerates(draws.pendingOrder, s.pending.Keys)
    ensures ServerInv(env, HandleClientHello(env, s, peer, hello, now, draws).server)
  {
    hide PendingTable, SessionTable, ResumableTable, Apart, AdmitHello;
    if hello.suite == env.cfg.suite {
      var attempt := RateLimit.TryAttempt(Limits(env.cfg), s.buckets, peer, now);
      TryAttemptSize(Limits(env.cfg), s.buckets, peer, now);
      var s1 := s.(buckets := attempt.buckets);
      SameHeldKeeps(env, s, s1);
      OriginKeeps(env, s1, now);
      AdmitHelloKeeps(env, s1, peer, hello, now, draws);
      AdmitHelloKeeps(env, WithOrigin(s1, now), peer, hello, now, draws);
    }
  }

  // ---------------------------------------------------------------- finish

  lemma HandOverHeld(s: Server, sid: SessionId, from: Option<SessionId>, session: ServerSession)
    requires IdsApart(s) && sid in s.pending && session.conversations == Inherited(s, from)
    ensures var s2 := Finished(s, sid, from, session);
            && IdsApart(s2)
            && Held(s2, sid) == Inherited(s, from).Keys
            && (if from.Some? then Held(s, from.value) == Inherited(s, from).Keys else Inherited(s, from).Keys == {})
            && (from.Some? ==> from.value == sid || Held(s2, from.value) == {})
            && (forall x :: x != sid && Some(x) != from ==> Held(s2, x) == Held(s, x))
  {
  }

  /** The session identifiers and the conversations after a resumption: what the
      old session held is now held by the new one, and by no other. */
  lemma HandOver(s: Server, sid: SessionId, from: Option<SessionId>, session: ServerSession)
    requires IdsApart(s) && ConversationsApart(s) && sid in s.pending
    requires session.conversations == Inherited(s, from)
    ensures var s2 := Finished(s, sid, from, session);
            && IdsApart(s2)
            && ConversationsApart(s2)
            && Held(s2, sid) == Inherited(s, from).Keys
            && (from.Some? ==> from.value == sid || Held(s2, from.value) == {})
            && (forall x :: x != sid && Some(x) != from ==> Held(s2, x) == Held(s, x))
  {
    var s2 := Finished(s, sid, from, session);
    HandOverHeld(s, sid, from, session);
    HandOverApart(s, s2, sid, from, Inherited(s, from).Keys);
  }

  lemma HandOverApart(s: Server, s2: Server, sid: SessionId, from: Option<SessionId>, moved: set<ConvId>)
    requires ConversationsApart(s) && Held(s2, sid) == moved
    requires if from.Some? then Held(s, from.value) == moved else moved == {}
    requires from.Some? ==> from.value == sid || Held(s2, from.value) == {}
    requires forall x :: x != sid && Some(x) != from ==> Held(s2, x) == Held(s, x)
    ensures ConversationsApart(s2)
  {
    hide Held;
    forall a, b
      ensures Apart(s2, a, b)
    {
      assert Apart(s, a, b);
      if from.Some? {
        assert Apart(s, a, from.value) && Apart(s, b, from.value);
      }
    }
  }

  lemma NewSessionSound(env: ServerEnv, s: Server, sid: SessionId, finish: ClientFinish, now: Time)
    requires ServerInv(env, s) && sid in s.pending
    ensures SessionSound(env, SessionFor(env, s, sid, finish, now), sid)
  {
    var p := s.pending[sid];
    assert PendingSound(env, p, sid);
    assert |Inherited(s, p.resumeFrom)| <= env.cfg.maxConversations by {
      if p.resumeFrom.Some? && p.resumeFrom.value in s.sessions {
        assert SessionSound(env, s.sessions[p.resumeFrom.value], p.resumeFrom.value);
      }
    }
  }

  lemma SessionTableRemoved(env: ServerEnv, sessions: map<SessionId, ServerSession>, sid: SessionId)
    requires SessionTable(env, sessions)
    ensures SessionTable(env, sessions - {sid})
    ensures sid in sessions ==> |sessions - {sid}| < env.cfg.maxSessions
  {
    hide SessionSound;
    var rest := sessions - {sid};
    SubsetSize(rest.Keys, sessions.Keys);
    if sid in sessions {
      assert sessions.Keys == rest.Keys + {sid};
    }
    forall x | x in rest
      ensures SessionSound(env, rest[x], x)
    {
      assert rest[x] == sessions[x];
    }
  }

  lemma SessionTableAdded(env: ServerEnv, sessions: map<SessionId, ServerSession>, sid: SessionId, session: ServerSession)
    requires SessionTable(env, sessions) && |sessions| < env.cfg.maxSessions && SessionSound(env, session, sid)
    ensures SessionTable(env, sessions[sid := session])
  {
    hide SessionSound;
    var more := sessions[sid := session];
    assert more.Keys == sessions.Keys + {sid};
    forall x | x in more
      ensures SessionSound(env, more[x], x)
    {
      if x != sid {
        assert more[x] == sessions[x];
      }
    }
  }

  lemma SessionTableReplaced(env: ServerEnv, s: Server, sid: SessionId, from: Option<SessionId>, session: ServerSession)
    requires SessionTable(env, s.sessions) && SessionSound(env, session, sid)
    requires |s.sessions| < env.cfg.maxSessions || (from.Some? && from.value in s.sessions)
    ensures SessionTable(env, Without(s, from).sessions[sid := session])
  {
    hide SessionTable, SessionSound;
    if from.Some? && from.value in s.sessions {
      SessionTableRemoved(env, s.sessions, from.value);
    }
    SessionTableAdded(env, Without(s, from).sessions, sid, session);
  }

  lemma FinishedKeeps(env: ServerEnv, s: Server, sid: SessionId, session: ServerSession)
    requires ServerInv(env, s) && sid in s.pending
    requires var from := s.pending[sid].resumeFrom;
             && session.conversations == Inherited(s, from)
             && (|s.sessions| < env.cfg.maxSessions || (from.Some? && from.value in s.sessions))
    requires SessionSound(env, session, sid)
    ensures ServerInv(env, Finished(s, sid, s.pending[sid].resumeFrom, session))
  {
    hide SessionTable, SessionSound, Apart, Distinct;
    var from := s.pending[sid].resumeFrom;
    HandOver(s, sid, from, session);
    SessionTableReplaced(env, s, sid, from, session);
    PendingReduced(env, s.pending, s.pending - {sid});
  }

  lemma HandleClientFinishKeeps(env: ServerEnv, s: Server, peer: PeerId, sid: SessionId, finish: ClientFinish, now: Time)
    requires ServerInv(env, s)
    ensures ServerInv(env, HandleClientFinish(env, s, peer, sid, finish, now).server)
  {
    hide PendingTable, SessionTable, ResumableTable, Apart, SessionSound, Finished, Inherited;
    if sid !in s.sessions && FinishRefusal(env, s, peer, sid, finish).None? {
      NewSessionSound(env, s, sid, finish, now);
      FinishedKeeps(env, s, sid, SessionFor(env, s, sid, finish, now));
    }
  }

  // ---------------------------------------------------------------- records

  /** What a record may do to a session: the window, the counter, the timer, the
      lease, at most one conversation and at most one handle. */
  ghost predicate SessionGrows(s0: ServerSession, s1: ServerSession, draw: Option<ConvId>) {
    && s1.peer == s0.peer && s1.ack == s0.ack && s1.finish == s0.finish && s1.resumedFrom == s0.resumedFrom
    && s1.sealer == s0.sealer.(next := s1.sealer.next) && s0.sealer.next <= s1.sealer.next
    && s1.opener == s0.opener.(window := s1.opener.window)
    && (forall c :: c in s1.conversations ==> c in s0.conversations || Some(c) == draw)
  }

  lemma BindResumedSound(env: ServerEnv, session: ServerSession, sid: SessionId, header: Header, plain: Plain, nowMs: nat)
    requires SessionSound(env, session, sid)
    ensures var r := BindResumed(env, session, header, plain, nowMs);
            SessionSound(env, r.session, sid) && SessionGrows(session, r.session, None)
  {
  }

  lemma RouteSound(env: ServerEnv, session: ServerSession, sid: SessionId, h: Handle, now: Time, draw: Option<ConvId>)
    requires SessionSound(env, session, sid)
    ensures var r := Route(env, session, h, now, draw);
            r.RoutedOk? ==>
              && SessionSound(env, r.session, sid) && SessionGrows(session, r.session, draw)
              && h in r.session.handles.byHandle && r.session.handles.byHandle[h] == r.conv
  {
    var r := Route(env, session, h, now, draw);
    if r.RoutedOk? && !r.isNew {
      assert r.session.conversations.Keys == session.conversations.Keys;
    }
  }

  lemma {:induction false} RefreshAllSound(env: ServerEnv, session: ServerSession, sid: SessionId, order: seq<ConvId>,
                                           issuedAtMs: nat, expiresAtMs: nat, randoms: seq<nat>)
    requires SessionSound(env, session, sid)
    ensures var r := RefreshAll(env, session, sid, order, issuedAtMs, expiresAtMs, randoms);
            && SessionSound(env, r.session, sid)
            && r.session == session.(sealer := r.session.sealer)
            && SessionGrows(session, r.session, None)
    decreases |order|
  {
    if order != [] && order[0] in session.handles.byId {
      var credential := IssueCredential(env.secret, sid, order[0], issuedAtMs, expiresAtMs, RandomAt(randoms, |order|));
      var f := Seal(session.sealer, ResumptionCredential, Some(session.handles.byId[order[0]]), CredentialBytes(credential));
      if f.SealOk? {
        RefreshAllSound(env, session.(sealer := f.sealer), sid, order[1..], issuedAtMs, expiresAtMs, randoms);
      }
    }
  }

  lemma RenewSound(env: ServerEnv, session: ServerSession, sid: SessionId, h: Handle, conv: ConvId, isNew: bool,
                   now: Time, nowMs: nat, draws: ServerDraws)
    requires SessionSound(env, session, sid)
    ensures var r := Renew(env, session, sid, h, conv, isNew, now, nowMs, draws);
            && SessionSound(env, r.session, sid) && SessionGrows(session, r.session, None)
            && r.session.handles == session.handles && r.session.conversations == session.conversations
  {
    if RefreshDue(env, session, now) {
      var expiresAtMs := Min(nowMs + Millis(env.cfg.resumptionLifetime), U64_MAX);
      var credential := IssueCredential(env.secret, sid, conv, nowMs, expiresAtMs, RandomAt(draws.randoms, 0));
      var leased := session.(lease := Some(Lease(credential, now + env.cfg.resumptionLifetime)));
      RefreshAllSound(env, leased, sid, draws.refreshOrder, nowMs, expiresAtMs, draws.randoms);
    }
  }

  lemma TakeDataSound(env: ServerEnv, session: ServerSession, sid: SessionId, header: Header, plain: Plain,
                      now: Time, nowMs: nat, draws: ServerDraws)
    requires SessionSound(env, session, sid)
    ensures var r := TakeData(env, session, sid, header, plain, now, nowMs, draws);
            SessionSound(env, r.session, sid) && SessionGrows(session, r.session, draws.conv)
  {
    if header.handle.Some? {
      var r := Route(env, session, header.handle.value, now, draws.conv);
      RouteSound(env, session, sid, header.handle.value, now, draws.conv);
      if r.RoutedOk? {
        RenewSound(env, r.session, sid, header.handle.value, r.conv, r.isNew, now, nowMs, draws);
      }
    }
  }

  lemma TakeRecordSound(env: ServerEnv, session: ServerSession, sid: SessionId, header: Header, plain: Plain,
                        now: Time, nowMs: nat, draws: ServerDraws)
    requires SessionSound(env, session, sid)
    ensures var r := TakeRecord(env, session, sid, header, plain, now, nowMs, draws);
            SessionSound(env, r.session, sid) && SessionGrows(session, r.session, draws.conv)
  {
    if header.ftype.ResumeConversation? {
      BindResumedSound(env, session, sid, header, plain, nowMs);
    } else if header.ftype.Data? {
      TakeDataSound(env, session, sid, header, plain, now, nowMs, draws);
    }
  }

  lemma OpenedSound(env: ServerEnv, session: ServerSession, sid: SessionId, frame: Frame, now: Time)
    requires SessionSound(env, session, sid) && Open(session.opener, frame).OpenOk?
    ensures var s1 := Touch(env, session.(opener := Open(session.opener, frame).opener), now);
            SessionSound(env, s1, sid) && SessionGrows(session, s1, None)
  {
  }

  lemma OfferRecordSound(env: ServerEnv, session: ServerSession, sid: SessionId, frame: Frame,
                         now: Time, nowMs: nat, draws: ServerDraws)
    requires SessionSound(env, session, sid) && frame.RecordMsg?
    ensures var r := OfferRecord(env, session, sid, frame, now, nowMs, draws);
            SessionSound(env, r.session, sid) && SessionGrows(session, r.session, draws.conv)
  {
    var o := Open(session.opener, frame);
    if o.OpenOk? {
      var touched := Touch(env, session.(opener := o.opener), now);
      OpenedSound(env, session, sid, frame, now);
      TakeRecordSound(env, touched, sid, frame.header, o.plain, now, nowMs, draws);
    }
  }

  lemma HandleRecordKeeps(env: ServerEnv, s: Server, peer: PeerId, frame: Frame, now: Time, draws: ServerDraws)
    requires ServerInv(env, s) && frame.RecordMsg? && FreshConv(s, draws.conv)
    ensures ServerInv(env, HandleRecord(env, s, peer, frame, now, draws).server)
  {
    hide PendingTable, ResumableTable, Apart, SessionSound, OfferRecord;
    var s1 := WithOrigin(s, now);
    var sid := frame.header.sid;
    OriginKeeps(env, s, now);
    if sid in s1.sessions {
      OfferRecordSound(env, s1.sessions[sid], sid, frame, now, NowMs(s1, now), draws);
      UpdateKeeps(env, s1, sid, OfferRecord(env, s1.sessions[sid], sid, frame, now, NowMs(s1, now), draws).session, draws.conv);
    }
  }

  // ------------------------------------------------------- upstream and closing

  lemma TouchSound(env: ServerEnv, session: ServerSession, sid: SessionId, now: Time, next: nat)
    requires SessionSound(env, session, sid) && next >= session.sealer.next
    ensures SessionSound(env, Touch(env, session, now).(sealer := session.sealer.(next := next)), sid)
    ensures SessionSound(env, Touch(env, session, now), sid)
  {
  }

  lemma HandleUpstreamKeeps(env: ServerEnv, s: Server, sid: SessionId, conv: ConvId, payload: seq<byte>, now: Time)
    requires ServerInv(env, s)
    ensures ServerInv(env, HandleUpstream(env, s, sid, conv, payload, now).server)
  {
    if sid in s.sessions && conv in s.sessions[sid].handles.byId && |payload| <= env.cfg.maxFramePayload {
      var session := Touch(env, s.sessions[sid], now);
      var f := Seal(session.sealer, Data, Some(session.handles.byId[conv]), Payload(payload));
      TouchSound(env, s.sessions[sid], sid, now, session.sealer.next + 1);
      UpdateKeeps(env, s, sid, if f.SealOk? then session.(sealer := f.sealer) else session, None);
    }
  }

  lemma ClosedSound(env: ServerEnv, session: ServerSession, sid: SessionId, gone: set<ConvId>)
    requires SessionSound(env, session, sid)
    ensures SessionSound(env, session.(conversations := session.conversations - gone,
                                       handles := RemoveAll(session.handles, gone)), sid)
  {
    SubsetSize((session.conversations - gone).Keys, session.conversations.Keys);
  }

  lemma CloseOneSound(env: ServerEnv, session: ServerSession, sid: SessionId, conv: ConvId)
    requires SessionSound(env, session, sid)
    ensures SessionSound(env, session.(conversations := session.conversations - {conv},
                                       handles := Remove(session.handles, conv)), sid)
  {
    SubsetSize((session.conversations - {conv}).Keys, session.conversations.Keys);
  }

  lemma HandleCloseKeeps(env: ServerEnv, s: Server, sid: SessionId, conv: ConvId)
    requires ServerInv(env, s)
    ensures ServerInv(env, HandleClose(s, sid, conv).server)
  {
    if sid in s.sessions && conv in s.sessions[sid].conversations {
      CloseOneSound(env, s.sessions[sid], sid, conv);
      UpdateKeeps(env, s, sid, HandleClose(s, sid, conv).server.sessions[sid], None);
    }
  }

  // ---------------------------------------------------------------- timers

  /** Expiry moves what an idle session still holds into the recovery table
      under the same identifier, and otherwise only forgets. */
  lemma ExpireHeld(env: ServerEnv, s: Server, now: Time, draws: ServerDraws)
    requires IdsApart(s)
    ensures var s1 := Expire(env, s, now, draws).server;
            && IdsApart(s1)
            && (forall sid :: Held(s1, sid) <= Held(s, sid))
  {
    var s1 := Expire(env, s, now, draws).server;
    forall sid
      ensures Held(s1, sid) <= Held(s, sid)
    {
    }
  }

  lemma PrunedSound(env: ServerEnv, session: ServerSession, sid: SessionId, now: Time)
    requires SessionSound(env, session, sid)
    ensures SessionSound(env, Pruned(env, session, now), sid)
    ensures |Pruned(env, session, now).conversations| <= env.cfg.maxConversations
  {
    ClosedSound(env, session, sid, IdleConversations(env, session, now));
  }

  lemma ExpireSessionTable(env: ServerEnv, s: Server, now: Time, draws: ServerDraws)
    requires SessionTable(env, s.sessions)
    ensures SessionTable(env, Expire(env, s, now, draws).server.sessions)
  {
    var t := Expire(env, s, now, draws).server.sessions;
    SubsetSize(t.Keys, s.sessions.Keys);
    forall sid | sid in t
      ensures SessionSound(env, t[sid], sid)
    {
      PrunedSound(env, s.sessions[sid], sid, now);
    }
  }

  lemma ExpireResumableTable(env: ServerEnv, s: Server, now: Time, draws: ServerDraws)
    requires SessionTable(env, s.sessions) && ResumableTable(env, s.resumable)
    ensures ResumableTable(env, Expire(env, s, now, draws).server.resumable)
  {
    var t := Expire(env, s, now, draws).server.resumable;
    forall sid | sid in t
      ensures |t[sid].conversations| <= env.cfg.maxConversations
    {
      if sid in s.sessions {
        PrunedSound(env, s.sessions[sid], sid, now);
      }
    }
  }

  lemma ExpireKeeps(env: ServerEnv, s: Server, now: Time, draws: ServerDraws)
    requires ServerInv(env, s)
    ensures ServerInv(env, Expire(env, s, now, draws).server)
  {
    var s1 := Expire(env, s, now, draws).server;
    ExpireHeld(env, s, now, draws);
    ExpireSessionTable(env, s, now, draws);
    ExpireResumableTable(env, s, now, draws);
    PendingReduced(env, s.pending, s1.pending);
    SubsetSize(s1.buckets.Keys, s.buckets.Keys);
    forall a, b
      ensures Apart(s1, a, b)
    {
      assert Apart(s, a, b);
    }
  }

  // ---------------------------------------------------------------- all events

  /** The platform's promises for one event. */
  ghost predicate ValidDraws(s: Server, draws: ServerDraws) {
    FreshConv(s, draws.conv) && Enumerates(draws.pendingOrder, s.pending.Keys)
  }

  lemma NewServerInv(env: ServerEnv)
    requires ValidConfig(env.cfg)
    ensures ServerInv(env, NewServer())
  {
    forall peer
      ensures PendingOf(NewServer().pending, peer) == {}
    {
    }
  }

  /** Every event, whether it succeeds, fails or panics, keeps the tables apart,
      sound and within their limits. */
  lemma ServerStepKeeps(env: ServerEnv, s: Server, event: ServerEvent, now: Time, draws: ServerDraws)
    requires ServerInv(env, s) && ValidConfig(env.cfg) && ValidDraws(s, draws)
    ensures ServerInv(env, ServerStep(env, s, event, now, draws).server)
  {
    match event
    case TunnelFrame(from, frame) =>
      if frame.HelloMsg? {
        HandleClientHelloKeeps(env, s, from, frame.hello, now, draws);
      } else if frame.FinishMsg? {
        HandleClientFinishKeeps(env, s, from, frame.sid, frame.finish, now);
      } else if frame.RecordMsg? {
        HandleRecordKeeps(env, s, from, frame, now, draws);
      }
    case ServerDatagram(sid, conv, payload) => HandleUpstreamKeeps(env, s, sid, conv, payload, now);
    case CloseConversation(session, conv) =>
      if session.Some? {
        HandleCloseKeeps(env, s, session.value, conv);
      }
    case TimeAdvanced(at) => ExpireKeeps(env, s, at, draws);
    case ClientOnly =>
  }
}
