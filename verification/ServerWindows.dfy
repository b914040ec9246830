/** The replay windows of the server's sessions, event by event. */
module ServerWindows {
  import opened Base
  import opened Protocol
  import opened Messages
  import opened ReplaySpec
  import opened Sessions
  import opened ServerSpec
  import RateLimit
  import SE = ServerEffects

  /** The event's record goes through the window. */
  ghost predicate Admits(w0: Window, w1: Window, event: ServerEvent) {
    event.TunnelFrame? && event.frame.RecordMsg? && Accept(w0, event.frame.header.number) == Accepted(w1)
  }

  /** A window stays, admits the event's record, or starts empty. */
  ghost predicate WindowMoves(env: ServerEnv, s: Server, s1: Server, sid: SessionId, event: ServerEvent) {
    sid in s1.sessions ==>
      var w1 := s1.sessions[sid].opener.window;
      if sid in s.sessions then w1 == s.sessions[sid].opener.window || Admits(s.sessions[sid].opener.window, w1, event)
      else w1 == NewWindow(env.cfg.replayWindowSize)
  }

  function Deliveries(actions: seq<Action>): nat {
    if actions == [] then 0 else (if actions[0].DeliverToUpstream? then 1 else 0) + Deliveries(actions[1..])
  }

  /** A reply delivers nothing, or one record, which the session's window has just
      admitted. */
  ghost predicate DeliversOnce(s: Server, o: ServerOutcome, event: ServerEvent) {
    o.reply.Ok? ==>
      && Deliveries(o.reply.actions) <= 1
      && (forall a :: a in o.reply.actions && a.DeliverToUpstream? ==>
            && a.sid in s.sessions && a.sid in o.server.sessions
            && Admits(s.sessions[a.sid].opener.window, o.server.sessions[a.sid].opener.window, event))
  }

  ghost predicate WindowSound(env: ServerEnv, s: Server, o: ServerOutcome, event: ServerEvent) {
    (forall sid :: WindowMoves(env, s, o.server, sid, event)) && DeliversOnce(s, o, event)
  }

  lemma {:induction false} DeliveriesConcat(a: seq<Action>, b: seq<Action>)
    ensures Deliveries(a + b) == Deliveries(a) + Deliveries(b)
  {
    if a == [] {
      assert a + b == b;
    } else {
      assert (a + b)[1..] == a[1..] + b;
      DeliveriesConcat(a[1..], b);
    }
  }

  lemma {:induction false} NoDeliveries(actions: seq<Action>)
    requires forall a :: a in actions ==> !a.DeliverToUpstream?
    ensures Deliveries(actions) == 0
  {
    if actions != [] {
      NoDeliveries(actions[1..]);
    }
  }

  /** Windows that stay, in a reply that delivers nothing. */
  lemma Undelivered(env: ServerEnv, s: Server, o: ServerOutcome, event: ServerEvent)
    requires forall sid :: sid in o.server.sessions ==>
               sid in s.sessions && o.server.sessions[sid].opener == s.sessions[sid].opener
    requires o.reply.Ok? ==> forall a :: a in o.reply.actions ==> !a.DeliverToUpstream?
    ensures WindowSound(env, s, o, event)
  {
    if o.reply.Ok? {
      NoDeliveries(o.reply.actions);
    }
  }

  // ---------------------------------------------------------------- handshake

  lemma AdmitUndelivered(env: ServerEnv, s: Server, peer: PeerId, hello: ClientHello, now: Time, draws: ServerDraws)
    ensures var o := AdmitHello(env, s, peer, hello, now, draws);
            && o.server.sessions == s.sessions
            && (o.reply.Ok? ==> forall a :: a in o.reply.actions ==> !a.DeliverToUpstream?)
  {
  }

  lemma HelloWindow(env: ServerEnv, s: Server, peer: PeerId, hello: ClientHello, now: Time, event: ServerEvent, draws: ServerDraws)
    requires env.cfg.rateRefillInterval > 0
    ensures WindowSound(env, s, HandleClientHello(env, s, peer, hello, now, draws), event)
  {
    var s1 := s.(buckets := RateLimit.TryAttempt(Limits(env.cfg), s.buckets, peer, now).buckets);
    AdmitUndelivered(env, s1, peer, hello, now, draws);
    AdmitUndelivered(env, WithOrigin(s1, now), peer, hello, now, draws);
    Undelivered(env, s, HandleClientHello(env, s, peer, hello, now, draws), event);
  }

  lemma FinishedMoves(env: ServerEnv, s: Server, sid: SessionId, from: Option<SessionId>, session: ServerSession, x: SessionId,
                      event: ServerEvent)
    requires sid !in s.sessions && session.opener.window == NewWindow(env.cfg.replayWindowSize)
    ensures WindowMoves(env, s, Finished(s, sid, from, session), x, event)
  {
  }

  lemma FinishWindow(env: ServerEnv, s: Server, peer: PeerId, sid: SessionId, finish: ClientFinish, now: Time, event: ServerEvent)
    ensures WindowSound(env, s, HandleClientFinish(env, s, peer, sid, finish, now), event)
  {
    hide Finished, WindowMoves, Inherited;
    var o := HandleClientFinish(env, s, peer, sid, finish, now);
    if sid in s.sessions || FinishRefusal(env, s, peer, sid, finish).Some? {
      Undelivered(env, s, o, event);
    } else {
      NoDeliveries(o.reply.actions);
      forall x
        ensures WindowMoves(env, s, o.server, x, event)
      {
        FinishedMoves(env, s, sid, s.pending[sid].resumeFrom, SessionFor(env, s, sid, finish, now), x, event);
      }
    }
  }

  // ---------------------------------------------------------------- records

  lemma {:induction false} RefreshAllWindow(env: ServerEnv, session: ServerSession, sid: SessionId, order: seq<ConvId>,
                                            issuedAtMs: nat, expiresAtMs: nat, randoms: seq<nat>)
    ensures var r := RefreshAll(env, session, sid, order, issuedAtMs, expiresAtMs, randoms);
            && r.session.opener == session.opener
            && (r.RefreshedOk? ==> Deliveries(r.actions) == 0 && forall a :: a in r.actions ==> !a.DeliverToUpstream?)
    decreases |order|
  {
    if order != [] && order[0] in session.handles.byId {
      var credential := IssueCredential(env.secret, sid, order[0], issuedAtMs, expiresAtMs, RandomAt(randoms, |order|));
      var f := Seal(session.sealer, ResumptionCredential, Some(session.handles.byId[order[0]]), CredentialBytes(credential));
      if f.SealOk? {
        RefreshAllWindow(env, session.(sealer := f.sealer), sid, order[1..], issuedAtMs, expiresAtMs, randoms);
      }
    }
  }

  lemma RenewWindow(env: ServerEnv, session: ServerSession, sid: SessionId, h: Handle, conv: ConvId, isNew: bool,
                    now: Time, nowMs: nat, draws: ServerDraws)
    ensures var r := Renew(env, session, sid, h, conv, isNew, now, nowMs, draws);
            && r.session.opener == session.opener
            && (r.RefreshedOk? ==> Deliveries(r.actions) == 0 && forall a :: a in r.actions ==> !a.DeliverToUpstream?)
  {
    if RefreshDue(env, session, now) {
      var expiresAtMs := Min(nowMs + Millis(env.cfg.resumptionLifetime), U64_MAX);
      var credential := IssueCredential(env.secret, sid, conv, nowMs, expiresAtMs, RandomAt(draws.randoms, 0));
      var leased := session.(lease := Some(Lease(credential, now + env.cfg.resumptionLifetime)));
      RefreshAllWindow(env, leased, sid, draws.refreshOrder, nowMs, expiresAtMs, draws.randoms);
    }
  }

  ghost predicate OneDelivery(session: ServerSession, r: SessionReply, sid: SessionId) {
    && r.session.opener == session.opener
    && (r.reply.Ok? ==> Deliveries(r.reply.actions) <= 1
                        && forall a :: a in r.reply.actions && a.DeliverToUpstream? ==> a.sid == sid)
  }

  lemma TakeDataWindow(env: ServerEnv, session: ServerSession, sid: SessionId, header: Header, plain: Plain,
                       now: Time, nowMs: nat, draws: ServerDraws)
    ensures OneDelivery(session, TakeData(env, session, sid, header, plain, now, nowMs, draws), sid)
  {
    if header.handle.Some? {
      var r := Route(env, session, header.handle.value, now, draws.conv);
      if r.RoutedOk? {
        var n := Renew(env, r.session, sid, header.handle.value, r.conv, r.isNew, now, nowMs, draws);
        RenewWindow(env, r.session, sid, header.handle.value, r.conv, r.isNew, now, nowMs, draws);
        if n.RefreshedOk? {
          var opening := if r.isNew then [ConversationOpened(Some(sid), r.conv)] else [];
          var last := [DeliverToUpstream(sid, r.conv, PayloadOf(plain)), ScheduleTimer(env.cfg.sessionIdleTimeout)];
          NoDeliveries(opening);
          DeliveriesConcat(opening, n.actions);
          DeliveriesConcat(opening + n.actions, last);
          NoDeliveries(last[1..]);
          assert Deliveries(last) == 1;
        }
      }
    }
  }

  lemma OfferWindow(env: ServerEnv, s0: ServerSession, sid: SessionId, event: ServerEvent, now: Time, nowMs: nat, draws: ServerDraws)
    requires event.TunnelFrame? && event.frame.RecordMsg?
    ensures var r := OfferRecord(env, s0, sid, event.frame, now, nowMs, draws);
            if Open(s0.opener, event.frame).OpenOk? then
              && Admits(s0.opener.window, r.session.opener.window, event)
              && (r.reply.Ok? ==> Deliveries(r.reply.actions) <= 1
                                  && forall a :: a in r.reply.actions && a.DeliverToUpstream? ==> a.sid == sid)
            else r.session == s0 && !r.reply.Ok?
  {
    var o := Open(s0.opener, event.frame);
    if o.OpenOk? {
      var t := Touch(env, s0.(opener := o.opener), now);
      TakeDataWindow(env, t, sid, event.frame.header, event.frame.body.plain, now, nowMs, draws);
    }
  }

  lemma RecordWindow(env: ServerEnv, s: Server, event: ServerEvent, now: Time, draws: ServerDraws)
    requires event.TunnelFrame? && event.frame.RecordMsg?
    ensures WindowSound(env, s, HandleRecord(env, s, event.from, event.frame, now, draws), event)
  {
    var o := HandleRecord(env, s, event.from, event.frame, now, draws);
    var sid := event.frame.header.sid;
    if sid in s.sessions && s.sessions[sid].peer == event.from {
      OfferWindow(env, s.sessions[sid], sid, event, now, NowMs(WithOrigin(s, now), now), draws);
    } else {
      Undelivered(env, s, o, event);
    }
  }

  // ---------------------------------------------------------------- all events

  lemma FrameWindow(env: ServerEnv, s: Server, event: ServerEvent, now: Time, draws: ServerDraws)
    requires env.cfg.rateRefillInterval > 0 && event.TunnelFrame?
    ensures WindowSound(env, s, HandleTunnel(env, s, event.from, event.frame, now, draws), event)
  {
    var o := HandleTunnel(env, s, event.from, event.frame, now, draws);
    match event.frame
    case HelloMsg(hello) => HelloWindow(env, s, event.from, hello, now, event, draws);
    case FinishMsg(sid, finish) => FinishWindow(env, s, event.from, sid, finish, now, event);
    case RecordMsg(header, _) =>
      if IsProtected(header.ftype) {
        RecordWindow(env, s, event, now, draws);
      } else {
        Undelivered(env, s, o, event);
      }
    case _ => Undelivered(env, s, o, event);
  }

  lemma TickWindow(env: ServerEnv, s: Server, at: Time, draws: ServerDraws)
    ensures WindowSound(env, s, Expire(env, s, at, draws), TimeAdvanced(at))
  {
    SE.PruneAllActionsQuiet(env, s, draws.sessionOrder, draws, at);
    SE.OverActionsQuiet(env, s, draws.sessionOrder, at);
    SE.RecoveryActionsQuiet(Recoveries(env, s, at), draws.resumableOrder, at);
    Undelivered(env, s, Expire(env, s, at, draws), TimeAdvanced(at));
  }

  lemma ServerStepWindow(env: ServerEnv, s: Server, event: ServerEvent, now: Time, draws: ServerDraws)
    requires env.cfg.rateRefillInterval > 0
    ensures WindowSound(env, s, ServerStep(env, s, event, now, draws), event)
  {
    hide WindowSound, HandleTunnel, Expire;
    match event
    case TunnelFrame(_, _) => FrameWindow(env, s, event, now, draws);
    case TimeAdvanced(at) => TickWindow(env, s, at, draws);
    case _ => Undelivered(env, s, ServerStep(env, s, event, now, draws), event);
  }
}
