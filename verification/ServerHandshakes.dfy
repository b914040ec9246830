/** Where the server's sessions, its resumptions and its credentials come from. */
module ServerHandshakes {
  import opened Base
  import opened Protocol
  import opened Messages
  import opened Sessions
  import opened ServerSpec
  import opened ServerInvariants
  import RateLimit
  import SE = ServerEffects

  // ---------------------------------------------------------------- sessions

  /** A session begins only with a finish that verifies for its pending handshake. */
  ghost predicate BeginsByFinish(env: ServerEnv, s: Server, s1: Server, event: ServerEvent) {
    forall sid :: sid in s1.sessions && sid !in s.sessions ==>
      && sid in s.pending && event.TunnelFrame? && event.frame.FinishMsg? && event.frame.sid == sid
      && FinishProblem(env.psk, event.frame.finish, s.pending[sid].hello, s.pending[sid].serverHello, sid).None?
  }

  /** A pending handshake was there before, or it answers the event's hello and
      resumes only what a credential in that hello names. */
  ghost predicate PendsByHello(env: ServerEnv, s: Server, s1: Server, event: ServerEvent) {
    forall sid :: sid in s1.pending ==>
      || (sid in s.pending && s1.pending[sid] == s.pending[sid])
      || (&& event.TunnelFrame? && event.frame.HelloMsg? && s1.pending[sid].hello == event.frame.hello
          && Presents(env, s1.pending[sid]))
  }

  /** What a pending handshake resumes is named by a credential of this server. */
  ghost predicate Presents(env: ServerEnv, p: Pending) {
    p.resumeFrom.Some? ==>
      && p.hello.resumption.Some? && Genuine(env, p.hello.resumption.value)
      && p.resumeFrom == Some(p.hello.resumption.value.body.session)
  }

  predicate Genuine(env: ServerEnv, c: Credential) {
    c.tag == Mac(ServerSecret(env.secret), CredentialText(c.body))
  }

  lemma AdmitPends(env: ServerEnv, s: Server, peer: PeerId, hello: ClientHello, now: Time, draws: ServerDraws)
    ensures var s1 := AdmitHello(env, s, peer, hello, now, draws).server;
            && s1.sessions == s.sessions
            && (forall sid :: sid in s1.pending ==>
                  || (sid in s.pending && s1.pending[sid] == s.pending[sid])
                  || (s1.pending[sid].hello == hello && Presents(env, s1.pending[sid])))
  {
  }

  lemma HelloPends(env: ServerEnv, s: Server, event: ServerEvent, now: Time, draws: ServerDraws)
    requires env.cfg.rateRefillInterval > 0 && event.TunnelFrame? && event.frame.HelloMsg?
    ensures var s1 := HandleClientHello(env, s, event.from, event.frame.hello, now, draws).server;
            s1.sessions == s.sessions && PendsByHello(env, s, s1, event)
  {
    hide AdmitHello, CookieVerifies, Presents;
    var s1 := s.(buckets := RateLimit.TryAttempt(Limits(env.cfg), s.buckets, event.from, now).buckets);
    AdmitPends(env, s1, event.from, event.frame.hello, now, draws);
    AdmitPends(env, WithOrigin(s1, now), event.from, event.frame.hello, now, draws);
  }

  lemma FinishBegins(env: ServerEnv, s: Server, event: ServerEvent, now: Time)
    requires event.TunnelFrame? && event.frame.FinishMsg?
    ensures var s1 := HandleClientFinish(env, s, event.from, event.frame.sid, event.frame.finish, now).server;
            && BeginsByFinish(env, s, s1, event)
            && (forall sid :: sid in s1.pending ==> sid in s.pending && s1.pending[sid] == s.pending[sid])
  {
    hide NewServerSession, Inherited;
  }

  lemma RecordBegins(env: ServerEnv, s: Server, peer: PeerId, frame: Frame, now: Time, draws: ServerDraws)
    requires frame.RecordMsg?
    ensures var s1 := HandleRecord(env, s, peer, frame, now, draws).server;
            s1.pending == s.pending && s1.sessions.Keys == s.sessions.Keys
  {
    hide OfferRecord;
  }

  lemma OtherBegins(env: ServerEnv, s: Server, event: ServerEvent, now: Time, draws: ServerDraws)
    requires env.cfg.rateRefillInterval > 0 && !event.TunnelFrame?
    ensures var s1 := ServerStep(env, s, event, now, draws).server;
            && s1.sessions.Keys <= s.sessions.Keys
            && (forall sid :: sid in s1.pending ==> sid in s.pending && s1.pending[sid] == s.pending[sid])
  {
    hide PruneAllActions, OverActions, RecoveryActions, Recoveries, Pruned, RateLimit.Evict, Seal, Remove;
  }

  /** Every event. */
  lemma ServerStepBegins(env: ServerEnv, s: Server, event: ServerEvent, now: Time, draws: ServerDraws)
    requires env.cfg.rateRefillInterval > 0
    ensures var s1 := ServerStep(env, s, event, now, draws).server;
            BeginsByFinish(env, s, s1, event) && PendsByHello(env, s, s1, event)
  {
    hide HandleClientHello, HandleClientFinish, HandleRecord, Expire, HandleUpstream, HandleClose, Presents, FinishProblem;
    if event.TunnelFrame? {
      match event.frame
      case HelloMsg(_) => HelloPends(env, s, event, now, draws);
      case FinishMsg(_, _) => FinishBegins(env, s, event, now);
      case RecordMsg(_, _) => RecordBegins(env, s, event.from, event.frame, now, draws);
      case _ =>
    } else {
      OtherBegins(env, s, event, now, draws);
    }
  }

  // ---------------------------------------------------------------- what is sent

  /** A retry of this server, or a record in which any credential is one of this
      server's, for the very session that seals it. */
  ghost predicate Made(env: ServerEnv, f: Frame) {
    && (f.RetryMsg? ==> f.retry.tag.Mac? && f.retry.tag.text.RetryAuth?
                        && f.retry.body.cookie.tag.Mac? && f.retry.body.cookie.tag.text.CookieText?)
    && (f.RecordMsg? && f.body.Sealed? && f.body.plain.CredentialBytes? ==>
          Genuine(env, f.body.plain.credential) && f.body.key.session.sid == f.body.plain.credential.body.session)
  }

  ghost predicate AllMade(env: ServerEnv, actions: seq<Action>) {
    forall a :: a in actions && a.SendFrame? ==> Made(env, a.frame)
  }

  lemma {:induction false} RefreshAllMade(env: ServerEnv, session: ServerSession, sid: SessionId, order: seq<ConvId>,
                                          issuedAtMs: nat, expiresAtMs: nat, randoms: seq<nat>)
    requires session.sealer.key.session.sid == sid
    ensures var r := RefreshAll(env, session, sid, order, issuedAtMs, expiresAtMs, randoms);
            r.RefreshedOk? ==> AllMade(env, r.actions)
    decreases |order|
  {
    if order != [] && order[0] in session.handles.byId {
      var credential := IssueCredential(env.secret, sid, order[0], issuedAtMs, expiresAtMs, RandomAt(randoms, |order|));
      var f := Seal(session.sealer, ResumptionCredential, Some(session.handles.byId[order[0]]), CredentialBytes(credential));
      if f.SealOk? {
        RefreshAllMade(env, session.(sealer := f.sealer), sid, order[1..], issuedAtMs, expiresAtMs, randoms);
      }
    }
  }

  lemma RenewMade(env: ServerEnv, session: ServerSession, sid: SessionId, h: Handle, conv: ConvId, isNew: bool,
                  now: Time, nowMs: nat, draws: ServerDraws)
    requires session.sealer.key.session.sid == sid
    ensures var r := Renew(env, session, sid, h, conv, isNew, now, nowMs, draws);
            r.RefreshedOk? ==> AllMade(env, r.actions)
  {
    var expiresAtMs := Min(nowMs + Millis(env.cfg.resumptionLifetime), U64_MAX);
    var credential := IssueCredential(env.secret, sid, conv, nowMs, expiresAtMs, RandomAt(draws.randoms, 0));
    var leased := session.(lease := Some(Lease(credential, now + env.cfg.resumptionLifetime)));
    RefreshAllMade(env, leased, sid, draws.refreshOrder, nowMs, expiresAtMs, draws.randoms);
  }

  lemma TakeDataMade(env: ServerEnv, session: ServerSession, sid: SessionId, header: Header, plain: Plain,
                     now: Time, nowMs: nat, draws: ServerDraws)
    requires session.sealer.key.session.sid == sid
    ensures var r := TakeData(env, session, sid, header, plain, now, nowMs, draws);
            r.reply.Ok? ==> AllMade(env, r.reply.actions)
  {
    hide Renew, Made;
    if header.handle.Some? {
      var r := Route(env, session, header.handle.value, now, draws.conv);
      if r.RoutedOk? {
        RenewMade(env, r.session, sid, header.handle.value, r.conv, r.isNew, now, nowMs, draws);
      }
    }
  }

  lemma RecordMade(env: ServerEnv, s: Server, peer: PeerId, frame: Frame, now: Time, draws: ServerDraws)
    requires frame.RecordMsg?
    requires var sid := frame.header.sid; sid in s.sessions ==> SessionSound(env, s.sessions[sid], sid)
    ensures var o := HandleRecord(env, s, peer, frame, now, draws);
            o.reply.Ok? ==> AllMade(env, o.reply.actions)
  {
    hide TakeData, Made, HandlesSound;
    var sid := frame.header.sid;
    if sid in s.sessions && s.sessions[sid].peer == peer {
      var r := Open(s.sessions[sid].opener, frame);
      if r.OpenOk? {
        var t := Touch(env, s.sessions[sid].(opener := r.opener), now);
        TakeDataMade(env, t, sid, frame.header, r.plain, now, NowMs(WithOrigin(s, now), now), draws);
      }
    }
  }

  lemma AdmitMade(env: ServerEnv, s: Server, peer: PeerId, hello: ClientHello, now: Time, draws: ServerDraws)
    ensures var o := AdmitHello(env, s, peer, hello, now, draws); o.reply.Ok? ==> AllMade(env, o.reply.actions)
  {
    hide ResumeFrom, FirstFresh, FindAttempt, CreateServerHello;
  }

  lemma HelloMade(env: ServerEnv, s: Server, peer: PeerId, hello: ClientHello, now: Time, draws: ServerDraws)
    requires env.cfg.rateRefillInterval > 0
    ensures var o := HandleClientHello(env, s, peer, hello, now, draws); o.reply.Ok? ==> AllMade(env, o.reply.actions)
  {
    hide AdmitHello, CookieVerifies;
    var s1 := s.(buckets := RateLimit.TryAttempt(Limits(env.cfg), s.buckets, peer, now).buckets);
    AdmitMade(env, s1, peer, hello, now, draws);
    AdmitMade(env, WithOrigin(s1, now), peer, hello, now, draws);
  }

  lemma FinishMade(env: ServerEnv, s: Server, peer: PeerId, sid: SessionId, finish: ClientFinish, now: Time)
    requires sid in s.sessions ==> s.sessions[sid].ack == AckOf(s.sessions[sid])
    ensures var o := HandleClientFinish(env, s, peer, sid, finish, now); o.reply.Ok? ==> AllMade(env, o.reply.actions)
  {
    hide NewServerSession, Inherited, Without, FinishRefusal;
  }

  lemma OtherMade(env: ServerEnv, s: Server, event: ServerEvent, now: Time, draws: ServerDraws)
    requires env.cfg.rateRefillInterval > 0 && !event.TunnelFrame?
    ensures var o := ServerStep(env, s, event, now, draws); o.reply.Ok? ==> AllMade(env, o.reply.actions)
  {
    hide Recoveries, Pruned, RateLimit.Evict, Remove, PruneAllActions, OverActions, RecoveryActions;
    if event.TimeAdvanced? {
      SE.PruneAllActionsQuiet(env, s, draws.sessionOrder, draws, event.at);
      SE.OverActionsQuiet(env, s, draws.sessionOrder, event.at);
      SE.RecoveryActionsQuiet(Recoveries(env, s, event.at), draws.resumableOrder, event.at);
    }
  }

  /** Every event. */
  lemma ServerStepMade(env: ServerEnv, s: Server, event: ServerEvent, now: Time, draws: ServerDraws)
    requires env.cfg.rateRefillInterval > 0 && SessionTable(env, s.sessions)
    ensures var o := ServerStep(env, s, event, now, draws); o.reply.Ok? ==> AllMade(env, o.reply.actions)
  {
    hide HandleClientHello, HandleClientFinish, HandleRecord, Expire, HandleUpstream, HandleClose, Made, HandlesSound;
    if event.TunnelFrame? {
      match event.frame
      case HelloMsg(hello) => HelloMade(env, s, event.from, hello, now, draws);
      case FinishMsg(sid, finish) => FinishMade(env, s, event.from, sid, finish, now);
      case RecordMsg(_, _) => RecordMade(env, s, event.from, event.frame, now, draws);
      case _ =>
    } else {
      OtherMade(env, s, event, now, draws);
    }
  }
}
