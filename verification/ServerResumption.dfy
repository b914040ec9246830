/** Resumption: what a finish hands over, and when a credential refresh finds a
    conversation without a handle. */
module ServerResumption {
  import opened Base
  import opened Protocol
  import opened Messages
  import opened Sessions
  import opened ServerSpec
  import opened ServerInvariants
  import SS = ServerSteps

  // ---------------------------------------------------------------- handing over

  /** Nothing but the resumed session has gone, and nothing but the new one come. */
  ghost predicate HandsOver(s: Server, s1: Server, sid: SessionId, from: Option<SessionId>) {
    && s1.pending == s.pending - {sid}
    && sid in s1.sessions && sid !in s1.resumable
    && s1.sessions[sid].conversations == Inherited(s, from)
    && s1.sessions[sid].handles == NewTable()
    && (from.Some? && from.value != sid ==> from.value !in s1.sessions && from.value !in s1.resumable)
    && (forall x :: x != sid && Some(x) != from ==>
          && (x in s1.sessions <==> x in s.sessions) && (x in s.sessions ==> s1.sessions[x] == s.sessions[x])
          && (x in s1.resumable <==> x in s.resumable) && (x in s.resumable ==> s1.resumable[x] == s.resumable[x]))
  }

  lemma FinishedHandsOver(s: Server, sid: SessionId, from: Option<SessionId>, session: ServerSession)
    requires IdsApart(s) && sid in s.pending
    requires session.conversations == Inherited(s, from) && session.handles == NewTable()
    ensures HandsOver(s, Finished(s, sid, from, session), sid, from)
  {
  }

  /** No pending handshake but this one claims the session it resumes. */
  ghost predicate SoleClaim(pending: map<SessionId, Pending>, sid: SessionId) {
    sid in pending && pending[sid].resumeFrom.Some? ==>
      forall x :: x in pending && x != sid ==> pending[x].resumeFrom != pending[sid].resumeFrom
  }

  lemma ClaimsApart(env: ServerEnv, pending: map<SessionId, Pending>, sid: SessionId)
    requires PendingTable(env, pending)
    ensures SoleClaim(pending, sid)
  {
    if sid in pending && pending[sid].resumeFrom.Some? {
      forall x | x in pending && x != sid
        ensures pending[x].resumeFrom != pending[sid].resumeFrom
      {
        assert Distinct(pending, sid, x);
      }
    }
  }

  /** A client finish that fails, or repeats one already accepted, changes nothing.
      One that succeeds gives the old session's conversations, unchanged, to
      exactly one new session: the old one is gone, no other pending handshake
      claims it, and every other session stays as it was. */
  lemma FinishConserves(env: ServerEnv, s: Server, peer: PeerId, sid: SessionId, finish: ClientFinish, now: Time)
    requires ServerInv(env, s)
    ensures var o := HandleClientFinish(env, s, peer, sid, finish, now);
            if !o.reply.Ok? || sid in s.sessions then o.server == s
            else sid in s.pending && HandsOver(s, o.server, sid, s.pending[sid].resumeFrom) && SoleClaim(s.pending, sid)
  {
    hide HandsOver, SoleClaim, Finished, FinishActions, Inherited, PendingTable, SessionTable, ResumableTable, ConversationsApart, IdsApart;
    if sid !in s.sessions && FinishRefusal(env, s, peer, sid, finish).None? {
      FinishedHandsOver(s, sid, s.pending[sid].resumeFrom, SessionFor(env, s, sid, finish, now));
      ClaimsApart(env, s.pending, sid);
    }
  }

  // ---------------------------------------------------------------- refreshing

  /** The first conversation of a list that has no handle. */
  function FirstUnbound(t: HandleTable, order: seq<ConvId>): (k: nat)
    ensures k <= |order|
    ensures forall i :: 0 <= i < k ==> order[i] in t.byId
    ensures k < |order| ==> order[k] !in t.byId
  {
    if order == [] || order[0] !in t.byId then 0 else 1 + FirstUnbound(t, order[1..])
  }

  /** The packet counter lasts for `k` credentials. */
  predicate Lasts(sealer: Sealer, k: nat) {
    k == 0 || sealer.next + k <= U64_MAX
  }

  /** Refreshing seals one credential per conversation until it meets one without
      a handle, or the counter runs out. */
  lemma {:induction false} RefreshOutcome(env: ServerEnv, session: ServerSession, sid: SessionId, order: seq<ConvId>,
                                          issuedAtMs: nat, expiresAtMs: nat, randoms: seq<nat>)
    ensures var r := RefreshAll(env, session, sid, order, issuedAtMs, expiresAtMs, randoms);
            var k := FirstUnbound(session.handles, order);
            && (r.RefreshedPanic? <==> k < |order| && Lasts(session.sealer, k))
            && (r.RefreshedOk? <==> k == |order| && Lasts(session.sealer, k))
    decreases |order|
  {
    if order != [] && order[0] in session.handles.byId {
      var credential := IssueCredential(env.secret, sid, order[0], issuedAtMs, expiresAtMs, RandomAt(randoms, |order|));
      var f := Seal(session.sealer, ResumptionCredential, Some(session.handles.byId[order[0]]), CredentialBytes(credential));
      if f.SealOk? {
        RefreshOutcome(env, session.(sealer := f.sealer), sid, order[1..], issuedAtMs, expiresAtMs, randoms);
      }
    }
  }

  ghost predicate HasUnbound(session: ServerSession) {
    exists c :: c in session.conversations && c !in session.handles.byId
  }

  lemma UnboundInOrder(session: ServerSession, order: seq<ConvId>)
    requires Enumerates(order, session.conversations.Keys)
    ensures FirstUnbound(session.handles, order) < |order| <==> HasUnbound(session)
  {
    var k := FirstUnbound(session.handles, order);
    if k < |order| {
      assert order[k] in order;
      assert order[k] in session.conversations.Keys;
    } else {
      forall c | c in session.conversations
        ensures c in session.handles.byId
      {
        assert c in order;
      }
    }
  }

  lemma RenewOutcome(env: ServerEnv, session: ServerSession, sid: SessionId, h: Handle, conv: ConvId, isNew: bool,
                     now: Time, nowMs: nat, draws: ServerDraws)
    requires Enumerates(draws.refreshOrder, session.conversations.Keys)
    ensures var r := Renew(env, session, sid, h, conv, isNew, now, nowMs, draws);
            r.RefreshedPanic? <==> RefreshDue(env, session, now) && HasUnbound(session)
                                   && Lasts(session.sealer, FirstUnbound(session.handles, draws.refreshOrder))
  {
    if RefreshDue(env, session, now) {
      var expiresAtMs := Min(nowMs + Millis(env.cfg.resumptionLifetime), U64_MAX);
      var credential := IssueCredential(env.secret, sid, conv, nowMs, expiresAtMs, RandomAt(draws.randoms, 0));
      var leased := session.(lease := Some(Lease(credential, now + env.cfg.resumptionLifetime)));
      RefreshOutcome(env, leased, sid, draws.refreshOrder, nowMs, expiresAtMs, draws.randoms);
      UnboundInOrder(leased, draws.refreshOrder);
      assert HasUnbound(leased) <==> HasUnbound(session);
    }
  }

  /** Routing neither adds nor removes an unbound conversation. */
  lemma RouteUnbound(env: ServerEnv, session: ServerSession, sid: SessionId, h: Handle, now: Time, draw: Option<ConvId>)
    requires SessionSound(env, session, sid) && Route(env, session, h, now, draw).RoutedOk?
    requires draw.Some? ==> draw.value !in session.conversations
    ensures var s1 := Route(env, session, h, now, draw).session;
            && (HasUnbound(s1) <==> HasUnbound(session))
            && s1.lease == session.lease && s1.sealer == session.sealer
            && s1.conversations.Keys == ConversationsAfter(session, h, draw)
  {
    var r := Route(env, session, h, now, draw);
    assert r.session.conversations.Keys == session.conversations.Keys + {r.conv};
    if c :| c in session.conversations && c !in session.handles.byId {
      assert c != r.conv;
      assert c in r.session.conversations && c !in r.session.handles.byId;
    }
    if c :| c in r.session.conversations && c !in r.session.handles.byId {
      assert c != r.conv;
    }
  }

  /** A data record that its session opens, and whose handle names a conversation
      or may open one. */
  predicate CarriesData(env: ServerEnv, session: ServerSession, frame: Frame, now: Time, draw: Option<ConvId>) {
    && Open(session.opener, frame).OpenOk? && frame.header.ftype.Data? && frame.header.handle.Some?
    && Route(env, session, frame.header.handle.value, now, draw).RoutedOk?
  }

  /** The counter lasts until the refresh has met a conversation without a handle. */
  predicate ReachesUnbound(env: ServerEnv, session: ServerSession, h: Handle, now: Time, draws: ServerDraws) {
    var r := Route(env, session, h, now, draws.conv);
    r.RoutedOk? && Lasts(session.sealer, FirstUnbound(r.session.handles, draws.refreshOrder))
  }

  lemma TakeDataPanics(env: ServerEnv, session: ServerSession, sid: SessionId, header: Header, plain: Plain,
                       now: Time, nowMs: nat, draws: ServerDraws)
    requires header.handle.Some?
    ensures var r := Route(env, session, header.handle.value, now, draws.conv);
            TakeData(env, session, sid, header, plain, now, nowMs, draws).reply.Panic? <==>
              r.RoutedOk? && Renew(env, r.session, sid, header.handle.value, r.conv, r.isNew, now, nowMs, draws).RefreshedPanic?
  {
  }

  lemma TakeDataOutcome(env: ServerEnv, session: ServerSession, sid: SessionId, header: Header, plain: Plain,
                        now: Time, nowMs: nat, draws: ServerDraws)
    requires SessionSound(env, session, sid) && header.handle.Some?
    requires draws.conv.Some? ==> draws.conv.value !in session.conversations
    requires Enumerates(draws.refreshOrder, ConversationsAfter(session, header.handle.value, draws.conv))
    ensures TakeData(env, session, sid, header, plain, now, nowMs, draws).reply.Panic? <==>
              && ReachesUnbound(env, session, header.handle.value, now, draws)
              && RefreshDue(env, session, now) && HasUnbound(session)
  {
    var h := header.handle.value;
    var r := Route(env, session, h, now, draws.conv);
    TakeDataPanics(env, session, sid, header, plain, now, nowMs, draws);
    if r.RoutedOk? {
      RouteUnbound(env, session, sid, h, now, draws.conv);
      RefreshUnmoved(env, session, r.session, now);
      RenewOutcome(env, r.session, sid, h, r.conv, r.isNew, now, nowMs, draws);
    }
  }

  /** Routing decides on the refresh as it was before. */
  lemma RefreshUnmoved(env: ServerEnv, a: ServerSession, b: ServerSession, now: Time)
    requires a.lease == b.lease
    ensures RefreshDue(env, a, now) <==> RefreshDue(env, b, now)
  {
  }

  lemma RouteAfterTouch(env: ServerEnv, session: ServerSession, opener: Opener, h: Handle, now: Time, draws: ServerDraws)
    ensures var t := Touch(env, session.(opener := opener), now);
            && (ReachesUnbound(env, t, h, now, draws) <==> ReachesUnbound(env, session, h, now, draws))
            && (RefreshDue(env, t, now) <==> RefreshDue(env, session, now))
            && (HasUnbound(t) <==> HasUnbound(session))
  {
  }

  lemma OfferOutcome(env: ServerEnv, session: ServerSession, sid: SessionId, frame: Frame, now: Time, nowMs: nat, draws: ServerDraws)
    requires SessionSound(env, session, sid) && frame.RecordMsg?
    requires draws.conv.Some? ==> draws.conv.value !in session.conversations
    requires frame.header.handle.Some? ==>
               Enumerates(draws.refreshOrder, ConversationsAfter(session, frame.header.handle.value, draws.conv))
    ensures OfferRecord(env, session, sid, frame, now, nowMs, draws).reply.Panic? <==>
              && CarriesData(env, session, frame, now, draws.conv) && RefreshDue(env, session, now) && HasUnbound(session)
              && ReachesUnbound(env, session, frame.header.handle.value, now, draws)
  {
    hide Enumerates, Renew;
    var o := Open(session.opener, frame);
    if o.OpenOk? {
      var t := Touch(env, session.(opener := o.opener), now);
      if frame.header.ftype.Data? && frame.header.handle.Some? {
        SS.OpenedSound(env, session, sid, frame, now);
        RouteAfterTouch(env, session, o.opener, frame.header.handle.value, now, draws);
        TakeDataOutcome(env, t, sid, frame.header, o.plain, now, nowMs, draws);
      }
    }
  }

  /** The event is a data record that its session opens and routes, a refresh is
      due, some conversation of the session has no handle, and the counter lasts
      until the refresh has come to it. */
  ghost predicate PanicDue(env: ServerEnv, s: Server, event: ServerEvent, now: Time, draws: ServerDraws) {
    && event.TunnelFrame? && event.frame.RecordMsg? && event.frame.header.sid in s.sessions
    && var session := s.sessions[event.frame.header.sid];
       && session.peer == event.from
       && CarriesData(env, session, event.frame, now, draws.conv)
       && RefreshDue(env, session, now) && HasUnbound(session)
       && ReachesUnbound(env, session, event.frame.header.handle.value, now, draws)
  }

  /** The engine panics on an event exactly when a panic is due. */
  lemma PanicsExactly(env: ServerEnv, s: Server, event: ServerEvent, now: Time, draws: ServerDraws)
    requires ServerInv(env, s) && env.cfg.rateRefillInterval > 0 && FreshConv(s, draws.conv)
    requires RefreshesAll(s, event, draws)
    ensures ServerStep(env, s, event, now, draws).reply.Panic? <==> PanicDue(env, s, event, now, draws)
  {
    if event.TunnelFrame? && event.frame.RecordMsg? {
      RecordPanics(env, s, event, now, draws);
    } else {
      OthersCalm(env, s, event, now, draws);
    }
  }

  lemma RecordPanics(env: ServerEnv, s: Server, event: ServerEvent, now: Time, draws: ServerDraws)
    requires event.TunnelFrame? && event.frame.RecordMsg? && env.cfg.rateRefillInterval > 0 && FreshConv(s, draws.conv)
    requires RefreshesAll(s, event, draws)
    requires var sid := event.frame.header.sid;
             sid in s.sessions ==> SessionSound(env, s.sessions[sid], sid)
    ensures HandleTunnel(env, s, event.from, event.frame, now, draws).reply.Panic? <==> PanicDue(env, s, event, now, draws)
  {
    hide OfferRecord, SessionSound, HasUnbound, ReachesUnbound;
    var sid := event.frame.header.sid;
    if sid in s.sessions {
      assert s.sessions[sid].conversations.Keys <= Held(s, sid);
      OfferOutcome(env, s.sessions[sid], sid, event.frame, now, NowMs(WithOrigin(s, now), now), draws);
    }
  }

  lemma HelloCalm(env: ServerEnv, s: Server, peer: PeerId, hello: ClientHello, now: Time, draws: ServerDraws)
    requires env.cfg.rateRefillInterval > 0
    ensures !HandleClientHello(env, s, peer, hello, now, draws).reply.Panic?
  {
  }

  lemma OthersCalm(env: ServerEnv, s: Server, event: ServerEvent, now: Time, draws: ServerDraws)
    requires env.cfg.rateRefillInterval > 0 && !(event.TunnelFrame? && event.frame.RecordMsg?)
    ensures !ServerStep(env, s, event, now, draws).reply.Panic?
  {
    if event.TunnelFrame? && event.frame.HelloMsg? {
      HelloCalm(env, s, event.from, event.frame.hello, now, draws);
    }
  }

  /** A session that never resumed anything binds all its conversations. */
  lemma UnresumedBound(env: ServerEnv, session: ServerSession, sid: SessionId)
    requires SessionSound(env, session, sid) && session.resumedFrom.None?
    ensures !HasUnbound(session)
  {
  }
}
