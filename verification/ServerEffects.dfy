/** What one event of the server may do to its sessions, which records it
    sends, and which payloads it delivers. */
module ServerEffects {
  import opened Base
  import opened Protocol
  import opened Messages
  import opened Sessions
  import opened ServerSpec
  import opened ServerInvariants
  import opened ServerSteps
  import RateLimit

  /** The event is a record that session `s` of identifier `sid` authenticates. */
  ghost predicate Reads(s: ServerSession, sid: SessionId, event: ServerEvent) {
    && event.TunnelFrame? && event.frame.RecordMsg?
    && event.frame.header.sid == sid
    && Authentic(s.opener, event.frame)
  }

  /** How handle `h` came to name conversation `c`: it did already, or the record
      being read bound it. */
  ghost predicate BoundBy(s0: ServerSession, sid: SessionId, h: Handle, c: ConvId, event: ServerEvent, draw: Option<ConvId>) {
    || (h in s0.handles.byHandle && s0.handles.byHandle[h] == c)
    || (&& Reads(s0, sid, event) && event.frame.header.handle == Some(h) && h !in s0.handles.byHandle
        && ((event.frame.header.ftype.Data? && Some(c) == draw)
            || (event.frame.header.ftype.ResumeConversation? && event.frame.body.plain.CredentialBytes?
                && event.frame.body.plain.credential.body.conversation == c)))
  }

  ghost predicate SessionMoves(s0: ServerSession, s1: ServerSession, sid: SessionId, event: ServerEvent, draw: Option<ConvId>) {
    && s1.sealer == s0.sealer.(next := s1.sealer.next) && s0.sealer.next <= s1.sealer.next
    && s1.ack == s0.ack
    && (forall h :: h in s1.handles.byHandle ==> BoundBy(s0, sid, h, s1.handles.byHandle[h], event, draw))
  }

  ghost predicate SessionBegins(env: ServerEnv, s: Server, s1: ServerSession, sid: SessionId) {
    && sid in s.pending
    && KeyOf(s1) == SessionKey(env.psk, s.pending[sid].hello, s.pending[sid].serverHello, sid)
    && s1.handles == NewTable() && s1.sealer.next == 1
    && s1.ack == AckOf(s1)
  }

  ghost predicate SessionEvolves(env: ServerEnv, s: Server, s1: Server, sid: SessionId, event: ServerEvent, draw: Option<ConvId>) {
    sid in s1.sessions ==>
      if sid in s.sessions then SessionMoves(s.sessions[sid], s1.sessions[sid], sid, event, draw)
      else SessionBegins(env, s, s1.sessions[sid], sid)
  }

  ghost predicate SessionsEvolve(env: ServerEnv, s: Server, s1: Server, event: ServerEvent, draw: Option<ConvId>) {
    forall sid :: SessionEvolves(env, s, s1, sid, event, draw)
  }

  /** A record sealed for a handle: a reply for the conversation the handle
      names, or that conversation's credential. */
  ghost predicate Labelled(s1: ServerSession, frame: Frame, event: ServerEvent) {
    && frame.RecordMsg? && frame.body.Sealed?
    && frame.body == Sealed(s1.sealer.key, s1.sealer.dir, s1.sealer.suite, frame.header, frame.body.plain)
    && frame.header.sid == s1.sealer.sid
    && frame.header.handle.Some?
    && frame.header.handle.value in s1.handles.byHandle
    && var conv := s1.handles.byHandle[frame.header.handle.value];
       || (frame.header.ftype.Data? && event.ServerDatagram? && event.sid == s1.sealer.sid && event.conv == conv
           && frame.body.plain == Payload(event.payload))
       || (frame.header.ftype.ResumptionCredential? && frame.body.plain.CredentialBytes?
           && frame.body.plain.credential.body.conversation == conv)
  }

  /** A record sent by this event: an acknowledgement sent before, the first
      record of a new session, or a new labelled record. */
  ghost predicate SentFor(s: Server, s1: Server, frame: Frame, event: ServerEvent) {
    && frame.RecordMsg?
    && var sid := frame.header.sid;
       || (sid in s.sessions && frame == s.sessions[sid].ack)
       || (sid !in s.sessions && sid in s1.sessions && frame == s1.sessions[sid].ack)
       || (&& sid in s.sessions && sid in s1.sessions
           && s.sessions[sid].sealer.next <= frame.header.number < s1.sessions[sid].sealer.next
           && Labelled(s1.sessions[sid], frame, event))
  }

  ghost predicate RecordsSound(s: Server, s1: Server, frames: seq<Frame>, event: ServerEvent) {
    && Ascending(frames)
    && (forall f :: f in frames ==> SentFor(s, s1, f, event))
    && (forall f, g :: f in frames && g in frames ==> f.header.sid == g.header.sid)
  }

  /** A payload delivered upstream is that of an authentic data record, whose
      handle now names the conversation it goes to. */
  ghost predicate DeliveredFor(s: Server, s1: Server, sid: SessionId, conv: ConvId, payload: seq<byte>, event: ServerEvent) {
    && sid in s.sessions && sid in s1.sessions
    && Reads(s.sessions[sid], sid, event)
    && event.frame.header.ftype.Data? && event.frame.header.handle.Some?
    && event.frame.header.handle.value in s1.sessions[sid].handles.byHandle
    && s1.sessions[sid].handles.byHandle[event.frame.header.handle.value] == conv
    && payload == PayloadOf(event.frame.body.plain)
  }

  ghost predicate ActionsSound(s: Server, s1: Server, actions: seq<Action>, event: ServerEvent) {
    && RecordsSound(s, s1, Records(actions), event)
    && (forall a :: a in actions && a.DeliverToUpstream? ==> DeliveredFor(s, s1, a.sid, a.conv, a.payload, event))
    && (forall a :: a in actions && a.SendFrame? && a.frame.ServerHelloMsg? ==>
          a.frame.sid in s1.pending && s1.pending[a.frame.sid].serverHello == a.frame.serverHello)
    && (forall a :: a in actions && a.SendFrame? ==> a.frame.RecordMsg? || a.frame.ServerHelloMsg? || a.frame.RetryMsg?)
  }

  /** A session is reported exactly when it begins, with its terms. */
  ghost predicate EstablishedSound(env: ServerEnv, s: Server, s1: Server, actions: seq<Action>) {
    forall a :: a in actions && a.SessionEstablished? ==>
      && a.sid in s1.sessions && a.sid !in s.sessions && a.sid in s.pending
      && a.suite == env.cfg.suite && a.resumed == s1.sessions[a.sid].resumedFrom.Some?
  }

  ghost predicate BeginsReported(s: Server, o: ServerOutcome) {
    forall sid :: sid in o.server.sessions && sid !in s.sessions ==>
      && o.reply.Ok?
      && (exists a :: a in o.reply.actions && a.SendFrame? && a.frame == o.server.sessions[sid].ack)
      && (exists a :: a in o.reply.actions && a.SessionEstablished? && a.sid == sid)
  }

  ghost predicate StepSound(env: ServerEnv, s: Server, o: ServerOutcome, event: ServerEvent, draws: ServerDraws) {
    && SessionsEvolve(env, s, o.server, event, draws.conv)
    && BeginsReported(s, o)
    && (o.reply.Ok? ==> ActionsSound(s, o.server, o.reply.actions, event) && EstablishedSound(env, s, o.server, o.reply.actions))
  }

  // -------------------------------------------------- events that only lose sessions

  /** Sessions may go, and lose handles, but nothing is bound and nothing sent. */
  ghost predicate OnlyLoses(s: Server, s1: Server) {
    forall sid :: sid in s1.sessions ==>
      && sid in s.sessions
      && s1.sessions[sid].sealer == s.sessions[sid].sealer
      && s1.sessions[sid].ack == s.sessions[sid].ack
      && (forall h :: h in s1.sessions[sid].handles.byHandle ==>
            h in s.sessions[sid].handles.byHandle
            && s1.sessions[sid].handles.byHandle[h] == s.sessions[sid].handles.byHandle[h])
  }

  lemma LosingStep(env: ServerEnv, s: Server, o: ServerOutcome, event: ServerEvent, draws: ServerDraws)
    requires OnlyLoses(s, o.server)
    requires o.reply.Ok? ==> forall a :: a in o.reply.actions ==> !a.SendFrame? && !a.DeliverToUpstream? && !a.SessionEstablished?
    ensures StepSound(env, s, o, event, draws)
  {
    if o.reply.Ok? {
      NoRecords(o.reply.actions);
    }
  }

  // ---------------------------------------------------------------- handshake

  /** Sessions untouched, and only handshake messages sent. */
  lemma HandshakeStep(env: ServerEnv, s: Server, o: ServerOutcome, event: ServerEvent, draws: ServerDraws)
    requires o.server.sessions == s.sessions
    requires o.reply.Ok? ==>
               forall a :: a in o.reply.actions ==>
                 && !a.DeliverToUpstream? && !a.SessionEstablished?
                 && (a.SendFrame? ==> a.frame.RetryMsg? || a.frame.ServerHelloMsg?)
                 && (a.SendFrame? && a.frame.ServerHelloMsg? ==>
                       a.frame.sid in o.server.pending && o.server.pending[a.frame.sid].serverHello == a.frame.serverHello)
    ensures StepSound(env, s, o, event, draws)
  {
    if o.reply.Ok? {
      NoRecords(o.reply.actions);
    }
  }

  lemma AdmitHelloEffect(env: ServerEnv, s: Server, s0: Server, peer: PeerId, hello: ClientHello, now: Time,
                         event: ServerEvent, draws: ServerDraws)
    requires s0.sessions == s.sessions
    ensures StepSound(env, s, AdmitHello(env, s0, peer, hello, now, draws), event, draws)
  {
    HandshakeStep(env, s, AdmitHello(env, s0, peer, hello, now, draws), event, draws);
  }

  lemma HandleClientHelloEffect(env: ServerEnv, s: Server, peer: PeerId, hello: ClientHello, now: Time,
                                event: ServerEvent, draws: ServerDraws)
    requires env.cfg.rateRefillInterval > 0
    ensures StepSound(env, s, HandleClientHello(env, s, peer, hello, now, draws), event, draws)
  {
    var o := HandleClientHello(env, s, peer, hello, now, draws);
    var attempt := RateLimit.TryAttempt(Limits(env.cfg), s.buckets, peer, now);
    var s1 := s.(buckets := attempt.buckets);
    var s2 := WithOrigin(s1, now);
    if o == AdmitHello(env, s1, peer, hello, now, draws) {
      AdmitHelloEffect(env, s, s1, peer, hello, now, event, draws);
    } else if o == AdmitHello(env, s2, peer, hello, now, draws) {
      AdmitHelloEffect(env, s, s2, peer, hello, now, event, draws);
    } else {
      HandshakeStep(env, s, o, event, draws);
    }
  }

  lemma ResentAckEffect(env: ServerEnv, s: Server, sid: SessionId, peer: PeerId, event: ServerEvent, draws: ServerDraws)
    requires sid in s.sessions && SessionSound(env, s.sessions[sid], sid)
    ensures StepSound(env, s, ServerOutcome(s, Ok([SendFrame(peer, s.sessions[sid].ack)])), event, draws)
  {
    var actions := [SendFrame(peer, s.sessions[sid].ack)];
    assert Records(actions) == [s.sessions[sid].ack];
    assert SentFor(s, s, s.sessions[sid].ack, event);
  }

  lemma FinishActionsShape(env: ServerEnv, p: Pending, sid: SessionId, peer: PeerId)
    ensures var actions := FinishActions(env, p, sid, peer); var ack := SealAck(env, p, sid).frame;
            && ack.RecordMsg? && |actions| >= 2
            && actions[0] == SendFrame(peer, ack)
            && actions[1] == SessionEstablished(peer, sid, env.cfg.suite, p.resumeFrom.Some?)
            && (forall i :: 1 <= i < |actions| ==> !actions[i].SendFrame?)
            && (forall a :: a in actions ==> !a.DeliverToUpstream? && (a.SendFrame? ==> a == actions[0])
                                             && (a.SessionEstablished? ==> a == actions[1]))
  {
  }

  lemma AckRecordSound(s: Server, s1: Server, sid: SessionId, ack: Frame, event: ServerEvent)
    requires sid !in s.sessions && sid in s1.sessions && s1.sessions[sid].ack == ack && ack.RecordMsg? && ack.header.sid == sid
    ensures RecordsSound(s, s1, [ack], event)
  {
    hide Labelled;
    assert SentFor(s, s1, ack, event);
  }

  lemma AcceptedEffect(env: ServerEnv, s: Server, sid: SessionId, peer: PeerId, finish: ClientFinish, now: Time,
                       event: ServerEvent, draws: ServerDraws)
    requires sid in s.pending && sid !in s.sessions
    ensures var s1 := Finished(s, sid, s.pending[sid].resumeFrom, SessionFor(env, s, sid, finish, now));
            StepSound(env, s, ServerOutcome(s1, Ok(FinishActions(env, s.pending[sid], sid, peer))), event, draws)
  {
    hide Finished, SessionFor, SessionsEvolve, FinishActions, SealAck, RecordsSound;
    var s1 := Finished(s, sid, s.pending[sid].resumeFrom, SessionFor(env, s, sid, finish, now));
    var ack := SealAck(env, s.pending[sid], sid).frame;
    var actions := FinishActions(env, s.pending[sid], sid, peer);
    FinishedEffect(env, s, sid, finish, now, event, draws);
    FinishActionsShape(env, s.pending[sid], sid, peer);
    FinishRecords(actions, ack);
    AckRecordSound(s, s1, sid, ack, event);
    assert actions[0] in actions && actions[1] in actions;
  }

  lemma HandleClientFinishEffect(env: ServerEnv, s: Server, peer: PeerId, sid: SessionId, finish: ClientFinish, now: Time,
                                 event: ServerEvent, draws: ServerDraws)
    requires sid in s.sessions ==> SessionSound(env, s.sessions[sid], sid)
    ensures StepSound(env, s, HandleClientFinish(env, s, peer, sid, finish, now), event, draws)
  {
    var o := HandleClientFinish(env, s, peer, sid, finish, now);
    if sid in s.sessions {
      if o.reply.Ok? {
        ResentAckEffect(env, s, sid, peer, event, draws);
      } else {
        HandshakeStep(env, s, o, event, draws);
      }
    } else if FinishRefusal(env, s, peer, sid, finish).Some? {
      HandshakeStep(env, s, o, event, draws);
    } else {
      AcceptedEffect(env, s, sid, peer, finish, now, event, draws);
    }
  }

  lemma FinishRecords(actions: seq<Action>, ack: Frame)
    requires |actions| >= 1 && actions[0].SendFrame? && actions[0].frame == ack && ack.RecordMsg?
    requires forall i :: 1 <= i < |actions| ==> !actions[i].SendFrame?
    ensures Records(actions) == [ack]
  {
    NoRecords(actions[1..]);
  }

  lemma FinishedEffect(env: ServerEnv, s: Server, sid: SessionId, finish: ClientFinish, now: Time,
                       event: ServerEvent, draws: ServerDraws)
    requires sid in s.pending && sid !in s.sessions
    ensures var session := SessionFor(env, s, sid, finish, now);
            var s1 := Finished(s, sid, s.pending[sid].resumeFrom, session);
            && SessionsEvolve(env, s, s1, event, draws.conv)
            && sid in s1.sessions && s1.sessions[sid] == session
            && session.ack == SealAck(env, s.pending[sid], sid).frame && session.ack.header.sid == sid
            && session.resumedFrom == s.pending[sid].resumeFrom
            && (forall x :: x in s1.sessions && x !in s.sessions ==> x == sid)
  {
    var session := SessionFor(env, s, sid, finish, now);
    var s1 := Finished(s, sid, s.pending[sid].resumeFrom, session);
    assert SessionBegins(env, s, session, sid);
    forall x
      ensures SessionEvolves(env, s, s1, x, event, draws.conv)
    {
    }
  }

  // ---------------------------------------------------------------- records

  /** The records a session has sealed between two of its states. */
  ghost predicate SealedBetween(s0: ServerSession, s1: ServerSession, frames: seq<Frame>, event: ServerEvent) {
    && Ascending(frames)
    && (forall f :: f in frames ==>
          s0.sealer.next <= f.header.number < s1.sealer.next && Labelled(s1, f, event))
  }

  lemma {:induction false} RefreshAllEffect(env: ServerEnv, session: ServerSession, sid: SessionId, order: seq<ConvId>,
                                            issuedAtMs: nat, expiresAtMs: nat, randoms: seq<nat>, event: ServerEvent)
    requires Inverse(session.handles)
    ensures var r := RefreshAll(env, session, sid, order, issuedAtMs, expiresAtMs, randoms);
            && r.session == session.(sealer := session.sealer.(next := r.session.sealer.next))
            && session.sealer.next <= r.session.sealer.next
            && (r.RefreshedOk? ==> SealedBetween(session, r.session, Records(r.actions), event) && OnlySends(r.actions))
    decreases |order|
  {
    if order != [] && order[0] in session.handles.byId {
      var credential := IssueCredential(env.secret, sid, order[0], issuedAtMs, expiresAtMs, RandomAt(randoms, |order|));
      var f := Seal(session.sealer, ResumptionCredential, Some(session.handles.byId[order[0]]), CredentialBytes(credential));
      if f.SealOk? {
        var s1 := session.(sealer := f.sealer);
        RefreshAllEffect(env, s1, sid, order[1..], issuedAtMs, expiresAtMs, randoms, event);
        var rest := RefreshAll(env, s1, sid, order[1..], issuedAtMs, expiresAtMs, randoms);
        if rest.RefreshedOk? {
          assert Labelled(rest.session, f.frame, event);
          PrependSealed(session, s1, rest.session, f.frame, rest.actions, event);
        }
      }
    }
  }

  /** Only records are sent, and nothing is delivered. */
  ghost predicate OnlySends(actions: seq<Action>) {
    forall a :: a in actions ==> a.SendFrame? && a.frame.RecordMsg?
  }

  lemma PrependSealed(s0: ServerSession, s1: ServerSession, s2: ServerSession, frame: Frame, actions: seq<Action>, event: ServerEvent)
    requires s1 == s0.(sealer := s0.sealer.(next := s0.sealer.next + 1)) && s1.sealer.next <= s2.sealer.next
    requires frame.RecordMsg? && frame.header.number == s0.sealer.next && Labelled(s2, frame, event)
    requires SealedBetween(s1, s2, Records(actions), event)
    ensures SealedBetween(s0, s2, Records([SendFrame(s0.peer, frame)] + actions), event)
  {
    RecordsConcat([SendFrame(s0.peer, frame)], actions);
    assert Records([SendFrame(s0.peer, frame)]) == [frame];
    var frames := [frame] + Records(actions);
    forall i, j | 0 <= i < j < |frames|
      ensures frames[i].header.number < frames[j].header.number
    {
      assert frames[j] == Records(actions)[j - 1];
      assert frames[j] in Records(actions);
      if i > 0 {
        assert frames[i] == Records(actions)[i - 1];
      }
    }
  }

  lemma RenewEffect(env: ServerEnv, session: ServerSession, sid: SessionId, h: Handle, conv: ConvId, isNew: bool,
                    now: Time, nowMs: nat, draws: ServerDraws, event: ServerEvent)
    requires Inverse(session.handles) && session.sealer.sid == sid
    requires h in session.handles.byHandle && session.handles.byHandle[h] == conv
    ensures var r := Renew(env, session, sid, h, conv, isNew, now, nowMs, draws);
            && r.session.sealer == session.sealer.(next := r.session.sealer.next)
            && session.sealer.next <= r.session.sealer.next
            && r.session.handles == session.handles && r.session.ack == session.ack
            && (r.RefreshedOk? ==> SealedBetween(session, r.session, Records(r.actions), event) && OnlySends(r.actions))
  {
    var r := Renew(env, session, sid, h, conv, isNew, now, nowMs, draws);
    if RefreshDue(env, session, now) {
      var expiresAtMs := Min(nowMs + Millis(env.cfg.resumptionLifetime), U64_MAX);
      var credential := IssueCredential(env.secret, sid, conv, nowMs, expiresAtMs, RandomAt(draws.randoms, 0));
      var leased := session.(lease := Some(Lease(credential, now + env.cfg.resumptionLifetime)));
      RefreshAllEffect(env, leased, sid, draws.refreshOrder, nowMs, expiresAtMs, draws.randoms, event);
    } else if isNew && r.RefreshedOk? {
      assert Records(r.actions) == [r.actions[0].frame];
    }
  }

  /** A session's part in reading a record. */
  ghost predicate ReplySound(s0: ServerSession, r: SessionReply, sid: SessionId, event: ServerEvent, draw: Option<ConvId>) {
    && SessionMoves(s0, r.session, sid, event, draw)
    && (r.reply.Ok? ==>
          && SealedBetween(s0, r.session, Records(r.reply.actions), event)
          && (forall a :: a in r.reply.actions ==> DeliversOnly(s0, r.session, sid, a, event)))
  }

  ghost predicate DeliversOnly(s0: ServerSession, s1: ServerSession, sid: SessionId, a: Action, event: ServerEvent) {
    && (a.SendFrame? ==> a.frame.RecordMsg?)
    && !a.SessionEstablished?
    && (a.DeliverToUpstream? ==>
          && a.sid == sid
          && Reads(s0, sid, event)
          && event.frame.header.ftype.Data? && event.frame.header.handle.Some?
          && event.frame.header.handle.value in s1.handles.byHandle
          && s1.handles.byHandle[event.frame.header.handle.value] == a.conv
          && a.payload == PayloadOf(event.frame.body.plain))
  }

  lemma BindResumedEffect(env: ServerEnv, s0: ServerSession, session: ServerSession, sid: SessionId, event: ServerEvent,
                          nowMs: nat, draw: Option<ConvId>)
    requires Reads(s0, sid, event) && event.frame.header.ftype.ResumeConversation?
    requires session.handles == s0.handles && session.sealer == s0.sealer && session.ack == s0.ack
    ensures ReplySound(s0, BindResumed(env, session, event.frame.header, event.frame.body.plain, nowMs), sid, event, draw)
  {
  }

  lemma RouteEffect(env: ServerEnv, s0: ServerSession, session: ServerSession, sid: SessionId, event: ServerEvent,
                    now: Time, draw: Option<ConvId>)
    requires Reads(s0, sid, event) && event.frame.header.ftype.Data? && event.frame.header.handle.Some?
    requires session.handles == s0.handles && session.sealer == s0.sealer && session.ack == s0.ack
    requires Inverse(s0.handles)
    ensures var h := event.frame.header.handle.value;
            var r := Route(env, session, h, now, draw);
            r.RoutedOk? ==>
              && SessionMoves(s0, r.session, sid, event, draw)
              && r.session.sealer == s0.sealer && Inverse(r.session.handles)
              && h in r.session.handles.byHandle && r.session.handles.byHandle[h] == r.conv
  {
  }

  lemma MovesWithHandles(s0: ServerSession, s1: ServerSession, s2: ServerSession, sid: SessionId, event: ServerEvent, draw: Option<ConvId>)
    requires SessionMoves(s0, s1, sid, event, draw)
    requires s2.handles == s1.handles && s2.ack == s1.ack
    requires s2.sealer == s1.sealer.(next := s2.sealer.next) && s1.sealer.next <= s2.sealer.next
    ensures SessionMoves(s0, s2, sid, event, draw)
  {
  }

  lemma TakeDataActions(isNew: bool, sid: SessionId, conv: ConvId, credentials: seq<Action>, payload: seq<byte>, delay: nat)
    requires OnlySends(credentials)
    ensures var actions := (if isNew then [ConversationOpened(Some(sid), conv)] else []) + credentials
                           + [DeliverToUpstream(sid, conv, payload), ScheduleTimer(delay)];
            && Records(actions) == Records(credentials)
            && (forall a :: a in actions ==>
                  && !a.SessionEstablished?
                  && (a.SendFrame? ==> a.frame.RecordMsg?) && (a.DeliverToUpstream? ==> a == DeliverToUpstream(sid, conv, payload)))
  {
    var pre := if isNew then [ConversationOpened(Some(sid), conv)] else [];
    var post := [DeliverToUpstream(sid, conv, payload), ScheduleTimer(delay)];
    NoRecords(pre);
    NoRecords(post);
    RecordsConcat(pre, credentials);
    RecordsConcat(pre + credentials, post);
  }

  lemma TakeDataEffect(env: ServerEnv, s0: ServerSession, session: ServerSession, sid: SessionId, event: ServerEvent,
                       now: Time, nowMs: nat, draws: ServerDraws)
    requires Reads(s0, sid, event) && event.frame.header.ftype.Data?
    requires session.handles == s0.handles && session.sealer == s0.sealer && session.ack == s0.ack
    requires Inverse(s0.handles) && s0.sealer.sid == sid
    ensures ReplySound(s0, TakeData(env, session, sid, event.frame.header, event.frame.body.plain, now, nowMs, draws),
                       sid, event, draws.conv)
  {
    var header := event.frame.header;
    if header.handle.Some? {
      var h := header.handle.value;
      var r := Route(env, session, h, now, draws.conv);
      RouteEffect(env, s0, session, sid, event, now, draws.conv);
      if r.RoutedOk? {
        RenewEffect(env, r.session, sid, h, r.conv, r.isNew, now, nowMs, draws, event);
        var n := Renew(env, r.session, sid, h, r.conv, r.isNew, now, nowMs, draws);
        MovesWithHandles(s0, r.session, n.session, sid, event, draws.conv);
        if n.RefreshedOk? {
          TakeDataActions(r.isNew, sid, r.conv, n.actions, PayloadOf(event.frame.body.plain), env.cfg.sessionIdleTimeout);
        }
      }
    }
  }

  lemma OfferRecordEffect(env: ServerEnv, s0: ServerSession, sid: SessionId, event: ServerEvent,
                          now: Time, nowMs: nat, draws: ServerDraws)
    requires event.TunnelFrame? && event.frame.RecordMsg? && event.frame.header.sid == sid
    requires Inverse(s0.handles) && s0.sealer.sid == sid
    ensures ReplySound(s0, OfferRecord(env, s0, sid, event.frame, now, nowMs, draws), sid, event, draws.conv)
  {
    var o := Open(s0.opener, event.frame);
    if o.OpenOk? {
      var session := Touch(env, s0.(opener := o.opener), now);
      if event.frame.header.ftype.ResumeConversation? {
        BindResumedEffect(env, s0, session, sid, event, nowMs, draws.conv);
      } else if event.frame.header.ftype.Data? {
        TakeDataEffect(env, s0, session, sid, event, now, nowMs, draws);
      }
    }
  }

  /** What one session did, seen from the whole server. */
  lemma LiftReply(env: ServerEnv, s: Server, s1: Server, sid: SessionId, r: SessionReply, event: ServerEvent, draws: ServerDraws)
    requires sid in s.sessions && ReplySound(s.sessions[sid], r, sid, event, draws.conv)
    requires s.sessions[sid].sealer.sid == sid
    requires s1.sessions == s.sessions[sid := r.session]
    ensures StepSound(env, s, ServerOutcome(s1, r.reply), event, draws)
  {
    forall x
      ensures SessionEvolves(env, s, s1, x, event, draws.conv)
    {
    }
    if r.reply.Ok? {
      var frames := Records(r.reply.actions);
      forall f | f in frames
        ensures SentFor(s, s1, f, event) && f.header.sid == sid
      {
        assert Labelled(r.session, f, event);
      }
    }
  }

  lemma HandleRecordEffect(env: ServerEnv, s: Server, event: ServerEvent, now: Time, draws: ServerDraws)
    requires event.TunnelFrame? && event.frame.RecordMsg?
    requires var sid := event.frame.header.sid;
             sid in s.sessions ==> SessionSound(env, s.sessions[sid], sid)
    ensures StepSound(env, s, HandleRecord(env, s, event.from, event.frame, now, draws), event, draws)
  {
    var o := HandleRecord(env, s, event.from, event.frame, now, draws);
    var sid := event.frame.header.sid;
    var s1 := WithOrigin(s, now);
    if sid in s.sessions && s.sessions[sid].peer == event.from {
      OfferRecordEffect(env, s.sessions[sid], sid, event, now, NowMs(s1, now), draws);
      LiftReply(env, s, o.server, sid, OfferRecord(env, s.sessions[sid], sid, event.frame, now, NowMs(s1, now), draws), event, draws);
    } else {
      HandshakeStep(env, s, o, event, draws);
    }
  }

  // ------------------------------------------------------- upstream, closing, timers

  lemma UpstreamEffect(env: ServerEnv, s: Server, sid: SessionId, conv: ConvId, payload: seq<byte>, now: Time, draws: ServerDraws)
    requires sid in s.sessions ==> SessionSound(env, s.sessions[sid], sid)
    ensures StepSound(env, s, HandleUpstream(env, s, sid, conv, payload, now), ServerDatagram(sid, conv, payload), draws)
  {
    hide StepSound, Records;
    var event := ServerDatagram(sid, conv, payload);
    var o := HandleUpstream(env, s, sid, conv, payload, now);
    if |payload| <= env.cfg.maxFramePayload && sid in s.sessions && conv in s.sessions[sid].handles.byId {
      var s0 := s.sessions[sid];
      var session := Touch(env, s0, now);
      var f := Seal(session.sealer, Data, Some(session.handles.byId[conv]), Payload(payload));
      if f.SealOk? {
        var actions := [SendFrame(session.peer, f.frame), ScheduleTimer(env.cfg.sessionIdleTimeout)];
        FinishRecords(actions, f.frame);
        LiftReply(env, s, o.server, sid, SessionReply(session.(sealer := f.sealer), Ok(actions)), event, draws);
      } else {
        LiftReply(env, s, o.server, sid, SessionReply(session, o.reply), event, draws);
      }
    } else {
      HandshakeStep(env, s, o, event, draws);
    }
  }

  lemma {:induction false} PruneActionsQuiet(env: ServerEnv, session: ServerSession, sid: SessionId, order: seq<ConvId>, now: Time)
    ensures forall a :: a in PruneActions(env, session, sid, order, now) ==> a.ConversationClosed?
  {
    if order != [] {
      PruneActionsQuiet(env, session, sid, order[1..], now);
    }
  }

  lemma {:induction false} PruneAllActionsQuiet(env: ServerEnv, s: Server, order: seq<SessionId>, draws: ServerDraws, now: Time)
    ensures forall a :: a in PruneAllActions(env, s, order, draws, now) ==> a.ConversationClosed?
  {
    if order != [] {
      PruneAllActionsQuiet(env, s, order[1..], draws, now);
      if order[0] in s.sessions {
        PruneActionsQuiet(env, s.sessions[order[0]], order[0], ConvOrder(draws, order[0]), now);
      }
    }
  }

  lemma {:induction false} OverActionsQuiet(env: ServerEnv, s: Server, order: seq<SessionId>, now: Time)
    ensures forall a :: a in OverActions(env, s, order, now) ==> a.SessionClosed?
  {
    if order != [] {
      OverActionsQuiet(env, s, order[1..], now);
    }
  }

  lemma {:induction false} RecoveryActionsQuiet(resumable: map<SessionId, Resumable>, order: seq<SessionId>, now: Time)
    ensures forall a :: a in RecoveryActions(resumable, order, now) ==> a.SessionRecoveryExpired?
  {
    if order != [] {
      RecoveryActionsQuiet(resumable, order[1..], now);
    }
  }

  lemma ExpireEffect(env: ServerEnv, s: Server, at: Time, draws: ServerDraws)
    ensures StepSound(env, s, Expire(env, s, at, draws), TimeAdvanced(at), draws)
  {
    PruneAllActionsQuiet(env, s, draws.sessionOrder, draws, at);
    OverActionsQuiet(env, s, draws.sessionOrder, at);
    RecoveryActionsQuiet(Recoveries(env, s, at), draws.resumableOrder, at);
    LosingStep(env, s, Expire(env, s, at, draws), TimeAdvanced(at), draws);
  }

  lemma CloseOnlyLoses(s: Server, sid: SessionId, conv: ConvId)
    ensures OnlyLoses(s, HandleClose(s, sid, conv).server)
  {
    hide Inverse, AllocateOnly;
  }

  lemma CloseEffect(env: ServerEnv, s: Server, sid: SessionId, conv: ConvId, event: ServerEvent, draws: ServerDraws)
    ensures StepSound(env, s, HandleClose(s, sid, conv), event, draws)
  {
    hide StepSound, OnlyLoses;
    CloseOnlyLoses(s, sid, conv);
    LosingStep(env, s, HandleClose(s, sid, conv), event, draws);
  }

  lemma RefusedStep(env: ServerEnv, s: Server, e: EngineError, event: ServerEvent, draws: ServerDraws)
    ensures StepSound(env, s, Refuse(s, e), event, draws)
  {
    HandshakeStep(env, s, Refuse(s, e), event, draws);
  }

  lemma HandleTunnelEffect(env: ServerEnv, s: Server, event: ServerEvent, now: Time, draws: ServerDraws)
    requires env.cfg.rateRefillInterval > 0 && event.TunnelFrame?
    requires event.frame.FinishMsg? && event.frame.sid in s.sessions ==> SessionSound(env, s.sessions[event.frame.sid], event.frame.sid)
    requires event.frame.RecordMsg? && event.frame.header.sid in s.sessions ==>
               SessionSound(env, s.sessions[event.frame.header.sid], event.frame.header.sid)
    ensures StepSound(env, s, HandleTunnel(env, s, event.from, event.frame, now, draws), event, draws)
  {
    var o := HandleTunnel(env, s, event.from, event.frame, now, draws);
    if event.frame.HelloMsg? {
      HandleClientHelloEffect(env, s, event.from, event.frame.hello, now, event, draws);
      assert o == HandleClientHello(env, s, event.from, event.frame.hello, now, draws);
    } else if event.frame.FinishMsg? {
      HandleClientFinishEffect(env, s, event.from, event.frame.sid, event.frame.finish, now, event, draws);
      assert o == HandleClientFinish(env, s, event.from, event.frame.sid, event.frame.finish, now);
    } else if event.frame.RecordMsg? && IsProtected(event.frame.header.ftype) {
      HandleRecordEffect(env, s, event, now, draws);
    } else {
      RefusedStep(env, s, UnexpectedMessage, event, draws);
      RefusedStep(env, s, Malformed, event, draws);
    }
  }

  lemma HandleCloseEffect(env: ServerEnv, s: Server, event: ServerEvent, now: Time, draws: ServerDraws)
    requires env.cfg.rateRefillInterval > 0 && event.CloseConversation?
    ensures StepSound(env, s, ServerStep(env, s, event, now, draws), event, draws)
  {
    if event.session.Some? {
      CloseEffect(env, s, event.session.value, event.conv, event, draws);
    } else {
      HandshakeStep(env, s, ServerStep(env, s, event, now, draws), event, draws);
    }
  }

  /** Every event of the server: what it does to sessions, what it seals and what
      it delivers. */
  lemma ServerStepEffect(env: ServerEnv, s: Server, event: ServerEvent, now: Time, draws: ServerDraws)
    requires SessionTable(env, s.sessions) && env.cfg.rateRefillInterval > 0
    ensures StepSound(env, s, ServerStep(env, s, event, now, draws), event, draws)
  {
    match event
    case TunnelFrame(_, _) => HandleTunnelEffect(env, s, event, now, draws);
    case ServerDatagram(sid, conv, payload) => UpstreamEffect(env, s, sid, conv, payload, now, draws);
    case CloseConversation(_, _) => HandleCloseEffect(env, s, event, now, draws);
    case TimeAdvanced(at) => ExpireEffect(env, s, at, draws);
    case ClientOnly => HandshakeStep(env, s, ServerStep(env, s, event, now, draws), event, draws);
  }

  // ------------------------------------------------------- where identifiers come from

  /** The event opens a conversation: a data record whose handle was not bound
      before is bound to the drawn identifier now. */
  predicate Opens(s0: Server, s1: Server, event: ServerEvent, draw: Option<ConvId>) {
    && event.TunnelFrame? && event.frame.RecordMsg? && event.frame.header.ftype.Data?
    && event.frame.header.handle.Some? && draw.Some?
    && var sid := event.frame.header.sid; var h := event.frame.header.handle.value;
       && sid in s0.sessions && sid in s1.sessions
       && h !in s0.sessions[sid].handles.byHandle
       && h in s1.sessions[sid].handles.byHandle && s1.sessions[sid].handles.byHandle[h] == draw.value
  }

  /** A conversation held after an event was held before, or opened by it. */
  ghost predicate HeldFrom(s0: Server, s1: Server, c: ConvId, event: ServerEvent, draw: Option<ConvId>) {
    (exists sid :: c in Held(s0, sid)) || (Opens(s0, s1, event, draw) && draw == Some(c))
  }

  lemma HeldSame(s0: Server, s1: Server, event: ServerEvent, draw: Option<ConvId>)
    requires forall sid :: Held(s1, sid) <= Held(s0, sid)
    ensures forall sid, c :: c in Held(s1, sid) ==> HeldFrom(s0, s1, c, event, draw)
  {
    forall sid, c | c in Held(s1, sid)
      ensures HeldFrom(s0, s1, c, event, draw)
    {
      assert c in Held(s0, sid);
    }
  }

  lemma HeldAfterFinish(s: Server, sid: SessionId, from: Option<SessionId>, session: ServerSession, event: ServerEvent, draw: Option<ConvId>)
    requires IdsApart(s) && ConversationsApart(s) && sid in s.pending && session.conversations == Inherited(s, from)
    ensures var s1 := Finished(s, sid, from, session);
            forall x, c :: c in Held(s1, x) ==> HeldFrom(s, s1, c, event, draw)
  {
    var s1 := Finished(s, sid, from, session);
    HandOver(s, sid, from, session);
    forall x, c | c in Held(s1, x)
      ensures HeldFrom(s, s1, c, event, draw)
    {
      if x == sid {
        assert c in Held(s, from.value);
      } else {
        assert c in Held(s, x);
      }
    }
  }

  lemma OfferRecordOpens(env: ServerEnv, s0: ServerSession, sid: SessionId, frame: Frame, now: Time, nowMs: nat, draws: ServerDraws, c: ConvId)
    requires frame.RecordMsg? && SessionSound(env, s0, sid)
    requires c in OfferRecord(env, s0, sid, frame, now, nowMs, draws).session.conversations && c !in s0.conversations
    ensures var s1 := OfferRecord(env, s0, sid, frame, now, nowMs, draws).session;
            && draws.conv == Some(c) && frame.header.ftype.Data? && frame.header.handle.Some?
            && frame.header.handle.value !in s0.handles.byHandle
            && frame.header.handle.value in s1.handles.byHandle && s1.handles.byHandle[frame.header.handle.value] == c
  {
    var o := Open(s0.opener, frame);
    var t := Touch(env, s0.(opener := o.opener), now);
    var h := frame.header.handle.value;
    OpenedSound(env, s0, sid, frame, now);
    var r := Route(env, t, h, now, draws.conv);
    RouteSound(env, t, sid, h, now, draws.conv);
    RenewSound(env, r.session, sid, h, r.conv, r.isNew, now, nowMs, draws);
  }

  lemma HeldAfterUpdate(s: Server, s1: Server, sid: SessionId, event: ServerEvent, draw: Option<ConvId>)
    requires sid in s.sessions && s1.resumable == s.resumable
    requires sid in s1.sessions && s1.sessions == s.sessions[sid := s1.sessions[sid]]
    requires forall c :: c in s1.sessions[sid].conversations ==>
               c in s.sessions[sid].conversations || (Opens(s, s1, event, draw) && draw == Some(c))
    ensures forall x, c :: c in Held(s1, x) ==> HeldFrom(s, s1, c, event, draw)
  {
    forall x, c | c in Held(s1, x)
      ensures HeldFrom(s, s1, c, event, draw)
    {
      if x != sid || c in s.sessions[sid].conversations || sid in s.resumable {
        assert c in Held(s, x) || (Opens(s, s1, event, draw) && draw == Some(c));
      }
    }
  }

  lemma HeldUntouched(s: Server, s1: Server, event: ServerEvent, draw: Option<ConvId>)
    requires s1.sessions == s.sessions && s1.resumable == s.resumable
    ensures forall x, c :: c in Held(s1, x) ==> HeldFrom(s, s1, c, event, draw)
  {
    forall sid
      ensures Held(s1, sid) <= Held(s, sid)
    {
    }
    HeldSame(s, s1, event, draw);
  }

  lemma HeldAfterRecord(env: ServerEnv, s: Server, event: ServerEvent, now: Time, draws: ServerDraws)
    requires event.TunnelFrame? && event.frame.RecordMsg?
    requires event.frame.header.sid in s.sessions ==> SessionSound(env, s.sessions[event.frame.header.sid], event.frame.header.sid)
    ensures var s1 := HandleRecord(env, s, event.from, event.frame, now, draws).server;
            forall x, c :: c in Held(s1, x) ==> HeldFrom(s, s1, c, event, draws.conv)
  {
    var s1 := HandleRecord(env, s, event.from, event.frame, now, draws).server;
    var sid := event.frame.header.sid;
    if sid in s.sessions && s.sessions[sid].peer == event.from {
      var nowMs := NowMs(WithOrigin(s, now), now);
      assert s1.sessions == s.sessions[sid := OfferRecord(env, s.sessions[sid], sid, event.frame, now, nowMs, draws).session];
      forall c | c in s1.sessions[sid].conversations && c !in s.sessions[sid].conversations
        ensures Opens(s, s1, event, draws.conv) && draws.conv == Some(c)
      {
        OfferRecordOpens(env, s.sessions[sid], sid, event.frame, now, nowMs, draws, c);
      }
      HeldAfterUpdate(s, s1, sid, event, draws.conv);
    } else {
      HeldUntouched(s, s1, event, draws.conv);
    }
  }

  lemma HelloKeepsSessions(env: ServerEnv, s: Server, peer: PeerId, hello: ClientHello, now: Time, draws: ServerDraws)
    requires env.cfg.rateRefillInterval > 0
    ensures var s1 := HandleClientHello(env, s, peer, hello, now, draws).server;
            && s1.sessions == s.sessions && s1.resumable == s.resumable
            && forall sid :: sid in s1.pending ==> sid in s.pending || sid in draws.sids
  {
    var s1 := s.(buckets := RateLimit.TryAttempt(Limits(env.cfg), s.buckets, peer, now).buckets);
    AdmitKeepsSessions(env, s1, peer, hello, now, draws);
    AdmitKeepsSessions(env, WithOrigin(s1, now), peer, hello, now, draws);
  }

  lemma AdmitKeepsSessions(env: ServerEnv, s: Server, peer: PeerId, hello: ClientHello, now: Time, draws: ServerDraws)
    ensures var s1 := AdmitHello(env, s, peer, hello, now, draws).server;
            && s1.sessions == s.sessions && s1.resumable == s.resumable
            && forall sid :: sid in s1.pending ==> sid in s.pending || sid in draws.sids
  {
  }

  lemma HeldAfterClientFinish(env: ServerEnv, s: Server, event: ServerEvent, now: Time, draw: Option<ConvId>)
    requires IdsApart(s) && ConversationsApart(s) && event.TunnelFrame? && event.frame.FinishMsg?
    ensures var s1 := HandleClientFinish(env, s, event.from, event.frame.sid, event.frame.finish, now).server;
            forall x, c :: c in Held(s1, x) ==> HeldFrom(s, s1, c, event, draw)
  {
    var sid := event.frame.sid;
    if sid in s.sessions || FinishRefusal(env, s, event.from, sid, event.frame.finish).Some? {
      HeldUntouched(s, s, event, draw);
    } else {
      HeldAfterFinish(s, sid, s.pending[sid].resumeFrom, SessionFor(env, s, sid, event.frame.finish, now), event, draw);
    }
  }

  lemma HeldAfterFrame(env: ServerEnv, s: Server, event: ServerEvent, now: Time, draws: ServerDraws)
    requires env.cfg.rateRefillInterval > 0 && event.TunnelFrame?
    requires IdsApart(s) && ConversationsApart(s)
    requires event.frame.RecordMsg? && event.frame.header.sid in s.sessions ==>
               SessionSound(env, s.sessions[event.frame.header.sid], event.frame.header.sid)
    ensures var s1 := HandleTunnel(env, s, event.from, event.frame, now, draws).server;
            forall x, c :: c in Held(s1, x) ==> HeldFrom(s, s1, c, event, draws.conv)
  {
    match event.frame
    case RecordMsg(header, _) =>
      if IsProtected(header.ftype) {
        HeldAfterRecord(env, s, event, now, draws);
      } else {
        HeldUntouched(s, s, event, draws.conv);
      }
    case FinishMsg(_, _) => HeldAfterClientFinish(env, s, event, now, draws.conv);
    case HelloMsg(hello) =>
      HelloKeepsSessions(env, s, event.from, hello, now, draws);
      HeldUntouched(s, HandleClientHello(env, s, event.from, hello, now, draws).server, event, draws.conv);
    case _ => HeldUntouched(s, s, event, draws.conv);
  }

  lemma HeldAfterDatagram(env: ServerEnv, s: Server, event: ServerEvent, now: Time, draw: Option<ConvId>)
    requires event.ServerDatagram?
    ensures var s1 := HandleUpstream(env, s, event.sid, event.conv, event.payload, now).server;
            forall x, c :: c in Held(s1, x) ==> HeldFrom(s, s1, c, event, draw)
  {
    var s1 := HandleUpstream(env, s, event.sid, event.conv, event.payload, now).server;
    if s1.sessions == s.sessions {
      HeldUntouched(s, s1, event, draw);
    } else {
      HeldAfterUpdate(s, s1, event.sid, event, draw);
    }
  }

  lemma HeldAfterClose(env: ServerEnv, s: Server, event: ServerEvent, now: Time, draws: ServerDraws)
    requires event.CloseConversation? && env.cfg.rateRefillInterval > 0
    ensures var s1 := ServerStep(env, s, event, now, draws).server;
            forall x, c :: c in Held(s1, x) ==> HeldFrom(s, s1, c, event, draws.conv)
  {
    var s1 := ServerStep(env, s, event, now, draws).server;
    if s1.sessions == s.sessions {
      HeldUntouched(s, s1, event, draws.conv);
    } else {
      HeldAfterUpdate(s, s1, event.session.value, event, draws.conv);
    }
  }

  lemma HeldAfter(env: ServerEnv, s: Server, event: ServerEvent, now: Time, draws: ServerDraws)
    requires ServerInv(env, s) && env.cfg.rateRefillInterval > 0
    ensures var s1 := ServerStep(env, s, event, now, draws).server;
            forall x, c :: c in Held(s1, x) ==> HeldFrom(s, s1, c, event, draws.conv)
  {
    match event
    case TunnelFrame(_, _) => HeldAfterFrame(env, s, event, now, draws);
    case ServerDatagram(_, _, _) => HeldAfterDatagram(env, s, event, now, draws.conv);
    case CloseConversation(_, _) => HeldAfterClose(env, s, event, now, draws);
    case TimeAdvanced(at) =>
      ExpireHeld(env, s, at, draws);
      HeldSame(s, Expire(env, s, at, draws).server, event, draws.conv);
    case ClientOnly => HeldUntouched(s, s, event, draws.conv);
  }

  /** New pending handshakes carry a drawn session identifier. */
  lemma PendingDrawn(env: ServerEnv, s: Server, event: ServerEvent, now: Time, draws: ServerDraws)
    requires env.cfg.rateRefillInterval > 0
    ensures forall sid :: sid in ServerStep(env, s, event, now, draws).server.pending ==> sid in s.pending || sid in draws.sids
  {
    if event.TunnelFrame? && event.frame.HelloMsg? {
      HelloKeepsSessions(env, s, event.from, event.frame.hello, now, draws);
    }
  }
}
