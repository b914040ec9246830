/** The host's routes against the engine's conversations, over whole runs. */
module RouteTheorems {
  import opened Base
  import opened Protocol
  import opened Config
  import opened Messages
  import opened Sessions
  import opened Routes
  import opened ServerSpec
  import opened ServerInvariants
  import RateLimit
  import SS = ServerSteps
  import SE = ServerEffects

  /** Every route belongs to a conversation that the engine still holds, active or
      recoverable. */
  ghost predicate Live(s: Server, t: Table) {
    forall k :: k in t.routes ==> k.1 in Held(s, k.0)
  }

  ghost predicate FreshSockets(t: Table, draws: seq<HostDraws>) {
    && (forall i :: 0 <= i < |draws| ==> FreshSocket(t, draws[i]))
    && (forall i, j :: 0 <= i < j < |draws| && draws[i].socket.Some? ==> draws[i].socket != draws[j].socket)
  }

  /** A conversation that was routed and is still held keeps its socket, under
      whatever session now holds it. */
  ghost predicate Follows(s1: Server, t: Table, t1: Table) {
    forall k, sid: SessionId :: k in t.routes && k.1 in Held(s1, sid) ==> (sid, k.1) in t1.routes && t1.routes[(sid, k.1)] == t.routes[k]
  }

  // ---------------------------------------------------------------- events that only add

  lemma {:induction false} ExecuteDeliveries(s1: Server, t: Table, actions: seq<Action>, draws: seq<HostDraws>)
    requires |draws| == |actions| && ValidTable(t) && FreshSockets(t, draws)
    requires forall a :: a in actions ==> Neutral(a) || (a.DeliverToUpstream? && a.conv in Held(s1, a.sid))
    ensures var t1 := Execute(t, actions, draws).table;
            && ValidTable(t1) && TasksStay(t, t1)
            && (forall k :: k in t.routes ==> k in t1.routes && t1.routes[k] == t.routes[k])
            && (forall k :: k in t1.routes ==> k in t.routes || k.1 in Held(s1, k.0))
    decreases |actions|
  {
    if actions != [] {
      assert actions[0] in actions;
      var first := ExecuteOne(t, actions[0], draws[0]);
      if actions[0].DeliverToUpstream? && (actions[0].sid, actions[0].conv) !in t.routes && draws[0].socket.Some? {
        EnsureValid(t, (actions[0].sid, actions[0].conv), draws[0]);
      }
      if first.ok {
        ExecuteDeliveries(s1, first.table, actions[1..], draws[1..]);
      }
    }
  }

  /** The engine holds at least what it held. */
  ghost predicate Keeps(s: Server, s1: Server) {
    forall sid :: Held(s, sid) <= Held(s1, sid)
  }

  lemma {:induction false} RefreshAllSends(env: ServerEnv, session: ServerSession, sid: SessionId, order: seq<ConvId>,
                                           issuedAtMs: nat, expiresAtMs: nat, randoms: seq<nat>)
    ensures var r := RefreshAll(env, session, sid, order, issuedAtMs, expiresAtMs, randoms);
            && r.session.conversations == session.conversations
            && (r.RefreshedOk? ==> forall a :: a in r.actions ==> Neutral(a))
    decreases |order|
  {
    if order != [] && order[0] in session.handles.byId {
      var credential := IssueCredential(env.secret, sid, order[0], issuedAtMs, expiresAtMs, RandomAt(randoms, |order|));
      var f := Seal(session.sealer, ResumptionCredential, Some(session.handles.byId[order[0]]), CredentialBytes(credential));
      if f.SealOk? {
        RefreshAllSends(env, session.(sealer := f.sealer), sid, order[1..], issuedAtMs, expiresAtMs, randoms);
      }
    }
  }

  ghost predicate RecordActions(reply: Reply) {
    reply.Ok? ==> forall a :: a in reply.actions ==> Neutral(a) || a.DeliverToUpstream?
  }

  lemma TakeDataKinds(env: ServerEnv, session: ServerSession, sid: SessionId, header: Header, plain: Plain,
                      now: Time, nowMs: nat, draws: ServerDraws)
    ensures var r := TakeData(env, session, sid, header, plain, now, nowMs, draws);
            session.conversations.Keys <= r.session.conversations.Keys && RecordActions(r.reply)
  {
    if header.handle.Some? {
      var r := Route(env, session, header.handle.value, now, draws.conv);
      if r.RoutedOk? && RefreshDue(env, r.session, now) {
        var expiresAtMs := Min(nowMs + Millis(env.cfg.resumptionLifetime), U64_MAX);
        var credential := IssueCredential(env.secret, sid, r.conv, nowMs, expiresAtMs, RandomAt(draws.randoms, 0));
        var leased := r.session.(lease := Some(Lease(credential, now + env.cfg.resumptionLifetime)));
        RefreshAllSends(env, leased, sid, draws.refreshOrder, nowMs, expiresAtMs, draws.randoms);
      }
    }
  }

  lemma OfferRecordKinds(env: ServerEnv, session: ServerSession, sid: SessionId, frame: Frame, now: Time, nowMs: nat, draws: ServerDraws)
    requires frame.RecordMsg?
    ensures var r := OfferRecord(env, session, sid, frame, now, nowMs, draws);
            session.conversations.Keys <= r.session.conversations.Keys && RecordActions(r.reply)
  {
    var o := Open(session.opener, frame);
    if o.OpenOk? {
      TakeDataKinds(env, Touch(env, session.(opener := o.opener), now), sid, frame.header, o.plain, now, nowMs, draws);
    }
  }

  lemma RecordKeeps(env: ServerEnv, s: Server, peer: PeerId, frame: Frame, now: Time, draws: ServerDraws)
    requires frame.RecordMsg?
    ensures var o := HandleRecord(env, s, peer, frame, now, draws); Keeps(s, o.server) && RecordActions(o.reply)
  {
    var o := HandleRecord(env, s, peer, frame, now, draws);
    var sid := frame.header.sid;
    if sid in s.sessions && s.sessions[sid].peer == peer {
      OfferRecordKinds(env, s.sessions[sid], sid, frame, now, NowMs(WithOrigin(s, now), now), draws);
    }
  }

  ghost predicate ValidHost(t: Table, actions: seq<Action>, draws: seq<HostDraws>) {
    && |draws| == |actions|
    && FreshSockets(t, draws)
    && (forall i :: 0 <= i < |actions| && actions[i].SessionResumed? ==>
          Enumerates(draws[i].order, RoutedUnder(t, actions[i].oldSid)))
  }

  /** What executing the actions of one event must achieve. */
  ghost predicate Agrees(s1: Server, t: Table, t1: Table) {
    ValidTable(t1) && Live(s1, t1) && Follows(s1, t, t1) && TasksStay(t, t1)
  }

  lemma SameKey(s: Server, a: Key, b: Key)
    requires ConversationsApart(s) && a.1 == b.1 && a.1 in Held(s, a.0) && b.1 in Held(s, b.0)
    ensures a == b
  {
    assert Apart(s, a.0, b.0);
  }

  /** An event that only adds conversations and delivers to them. */
  lemma AddingAgrees(s: Server, s1: Server, t: Table, actions: seq<Action>, draws: seq<HostDraws>)
    requires Live(s, t) && ValidTable(t) && ValidHost(t, actions, draws) && Keeps(s, s1) && ConversationsApart(s1)
    requires forall a :: a in actions ==> Neutral(a) || (a.DeliverToUpstream? && a.conv in Held(s1, a.sid))
    ensures Agrees(s1, t, Execute(t, actions, draws).table)
  {
    ExecuteDeliveries(s1, t, actions, draws);
    var t1 := Execute(t, actions, draws).table;
    forall k, sid: SessionId | k in t.routes && k.1 in Held(s1, sid)
      ensures (sid, k.1) in t1.routes && t1.routes[(sid, k.1)] == t.routes[k]
    {
      assert Held(s, k.0) <= Held(s1, k.0);
      SameKey(s1, k, (sid, k.1));
    }
    forall k | k in t1.routes
      ensures k.1 in Held(s1, k.0)
    {
      assert Held(s, k.0) <= Held(s1, k.0);
    }
  }

  // ---------------------------------------------------------------- resumption

  lemma MovedAgrees(s: Server, s1: Server, t: Table, t1: Table, from: SessionId, to: SessionId, convs: seq<ConvId>)
    requires Live(s, t) && ConversationsApart(s1) && ValidTable(t1) && Moved(t, t1, from, to, convs) && TasksStay(t, t1)
    requires Enumerates(convs, RoutedUnder(t, from))
    requires HandedOver(s, s1, from, to)
    ensures Agrees(s1, t, t1)
  {
    forall c | (from, c) in t.routes
      ensures c in convs
    {
      assert c in RoutedUnder(t, from);
    }
    forall k | k in t1.routes
      ensures k.1 in Held(s1, k.0)
    {
      if k.0 == to && k.1 in convs {
        assert (from, k.1) in t.routes;
      }
    }
    forall k, sid: SessionId | k in t.routes && k.1 in Held(s1, sid)
      ensures (sid, k.1) in t1.routes && t1.routes[(sid, k.1)] == t.routes[k]
    {
      if k.0 == from {
        assert k.1 in RoutedUnder(t, from);
        SameKey(s1, (to, k.1), (sid, k.1));
      } else {
        SameKey(s1, k, (sid, k.1));
      }
    }
  }

  /** The conversations of the resumed session are held by the new one. */
  ghost predicate HandedOver(s: Server, s1: Server, from: SessionId, to: SessionId) {
    && Held(s1, to) == Held(s, from) && Held(s, to) == {}
    && forall x :: x != from && x != to ==> Held(s1, x) == Held(s, x)
  }

  lemma FinishHandsOver(s: Server, sid: SessionId, from: SessionId, session: ServerSession)
    requires IdsApart(s) && ConversationsApart(s) && sid in s.pending && session.conversations == Inherited(s, Some(from))
    ensures HandedOver(s, Finished(s, sid, Some(from), session), from, sid)
    ensures ConversationsApart(Finished(s, sid, Some(from), session))
  {
    SS.HandOver(s, sid, Some(from), session);
  }

  lemma RoutesFollow(s: Server, s1: Server, t: Table, from: SessionId, to: SessionId, order: seq<ConvId>)
    requires Live(s, t) && ValidTable(t) && ConversationsApart(s1) && HandedOver(s, s1, from, to)
    requires Enumerates(order, RoutedUnder(t, from))
    ensures Agrees(s1, t, MoveAll(t, from, to, order))
  {
    forall c | c in order
      ensures (from, c) in t.routes && c in Held(s, from)
    {
      assert c in RoutedUnder(t, from);
    }
    if from == to {
      assert RoutedUnder(t, from) == {};
      EnumerationLength(order, {});
      MovedAgrees(s, s1, t, t, from, to, order);
    } else {
      MoveAllMoves(t, from, to, order);
      MovedAgrees(s, s1, t, MoveAll(t, from, to, order), from, to, order);
    }
  }

  lemma ResumedAgrees(env: ServerEnv, s: Server, peer: PeerId, sid: SessionId, finish: ClientFinish, now: Time,
                      t: Table, draws: seq<HostDraws>)
    requires IdsApart(s) && ConversationsApart(s) && Live(s, t) && ValidTable(t)
    requires sid in s.pending && s.pending[sid].resumeFrom.Some?
    requires ValidHost(t, FinishActions(env, s.pending[sid], sid, peer), draws)
    ensures var s1 := Finished(s, sid, s.pending[sid].resumeFrom, SessionFor(env, s, sid, finish, now));
            var x := Execute(t, FinishActions(env, s.pending[sid], sid, peer), draws);
            x.ok && Agrees(s1, t, x.table)
  {
    var from := s.pending[sid].resumeFrom.value;
    var actions := FinishActions(env, s.pending[sid], sid, peer);
    assert actions[2] == SessionResumed(peer, from, sid);
    FinishHandsOver(s, sid, from, SessionFor(env, s, sid, finish, now));
    ResumedRoutes(t, actions, draws, from, sid);
    RoutesFollow(s, Finished(s, sid, Some(from), SessionFor(env, s, sid, finish, now)), t, from, sid, draws[2].order);
  }

  lemma ResumedRoutes(t: Table, actions: seq<Action>, draws: seq<HostDraws>, from: SessionId, to: SessionId)
    requires |actions| == |draws| == 4 && Neutral(actions[0]) && Neutral(actions[1]) && Neutral(actions[3])
    requires actions[2].SessionResumed? && actions[2].oldSid == from && actions[2].newSid == to
    ensures Execute(t, actions, draws) == Executed(MoveAll(t, from, to, draws[2].order), true)
  {
    ExecuteNeutral(t, actions[..2], draws[..2]);
    assert actions[..2] + actions[2..] == actions && draws[..2] + draws[2..] == draws;
    ExecuteConcat(t, actions[..2], actions[2..], draws[..2], draws[2..]);
    assert actions[2..][1..] == actions[3..] && draws[2..][1..] == draws[3..];
    ExecuteNeutral(MoveAll(t, from, to, draws[2].order), actions[3..], draws[3..]);
  }

  lemma NewSessionAgrees(env: ServerEnv, s: Server, peer: PeerId, sid: SessionId, finish: ClientFinish, now: Time,
                         t: Table, draws: seq<HostDraws>)
    requires IdsApart(s) && ConversationsApart(s) && Live(s, t) && ValidTable(t)
    requires sid in s.pending && s.pending[sid].resumeFrom.None?
    requires ValidHost(t, FinishActions(env, s.pending[sid], sid, peer), draws)
    ensures var s1 := Finished(s, sid, s.pending[sid].resumeFrom, SessionFor(env, s, sid, finish, now));
            Agrees(s1, t, Execute(t, FinishActions(env, s.pending[sid], sid, peer), draws).table)
  {
    var session := SessionFor(env, s, sid, finish, now);
    SS.HandOver(s, sid, None, session);
    var s1 := Finished(s, sid, None, session);
    forall x
      ensures Held(s, x) <= Held(s1, x)
    {
    }
    AddingAgrees(s, s1, t, FinishActions(env, s.pending[sid], sid, peer), draws);
  }

  // ---------------------------------------------------------------- timers

  lemma {:induction false} PruneActionsReport(env: ServerEnv, session: ServerSession, sid: SessionId, order: seq<ConvId>, now: Time, c: ConvId)
    requires c in order && IdleConversation(env, session, c, now)
    ensures ConversationClosed(Some(sid), c) in PruneActions(env, session, sid, order, now)
  {
    if order[0] != c {
      PruneActionsReport(env, session, sid, order[1..], now, c);
    }
  }

  lemma {:induction false} PruneAllReport(env: ServerEnv, s: Server, order: seq<SessionId>, draws: ServerDraws, now: Time,
                                          sid: SessionId, c: ConvId)
    requires sid in order && sid in s.sessions && c in ConvOrder(draws, sid) && IdleConversation(env, s.sessions[sid], c, now)
    ensures ConversationClosed(Some(sid), c) in PruneAllActions(env, s, order, draws, now)
  {
    if order[0] == sid {
      PruneActionsReport(env, s.sessions[sid], sid, ConvOrder(draws, sid), now, c);
    } else {
      PruneAllReport(env, s, order[1..], draws, now, sid, c);
    }
  }

  lemma {:induction false} RecoveryReport(resumable: map<SessionId, Resumable>, order: seq<SessionId>, now: Time, sid: SessionId)
    requires sid in order && sid in resumable && now >= resumable[sid].expiresAt
    ensures SessionRecoveryExpired(sid) in RecoveryActions(resumable, order, now)
  {
    if order[0] != sid {
      RecoveryReport(resumable, order[1..], now, sid);
    }
  }

  /** A conversation that a tick drops is reported: closed, or its session's
      recovery expired. */
  lemma DropReported(env: ServerEnv, s: Server, at: Time, draws: ServerDraws, k: Key)
    requires IdsApart(s) && VisitsAll(env, s, at, draws) && env.cfg.resumptionLifetime > 0
    requires k.1 in Held(s, k.0) && k.1 !in Held(Expire(env, s, at, draws).server, k.0)
    ensures TakenOut(Expire(env, s, at, draws).reply.actions, k)
  {
    var (sid, c) := k;
    var actions := Expire(env, s, at, draws).reply.actions;
    if sid in s.sessions && IdleConversation(env, s.sessions[sid], c, at) {
      assert c in s.sessions[sid].conversations.Keys;
      PruneAllReport(env, s, draws.sessionOrder, draws, at, sid, c);
      assert ConversationClosed(Some(sid), c) in actions && TakesOut(ConversationClosed(Some(sid), c), k);
    } else {
      var recoveries := Recoveries(env, s, at);
      if sid in s.sessions {
        assert c in Pruned(env, s.sessions[sid], at).conversations;
      }
      assert sid in recoveries && at >= recoveries[sid].expiresAt;
      RecoveryReport(recoveries, draws.resumableOrder, at, sid);
      assert SessionRecoveryExpired(sid) in actions && TakesOut(SessionRecoveryExpired(sid), k);
    }
  }

  lemma {:induction false} PruneActionsIdle(env: ServerEnv, session: ServerSession, sid: SessionId, order: seq<ConvId>, now: Time, a: Action)
    requires a in PruneActions(env, session, sid, order, now)
    ensures a.ConversationClosed? && a.session == Some(sid) && IdleConversation(env, session, a.conv, now)
  {
    if a in PruneActions(env, session, sid, order[1..], now) {
      PruneActionsIdle(env, session, sid, order[1..], now, a);
    }
  }

  lemma {:induction false} PruneAllIdle(env: ServerEnv, s: Server, order: seq<SessionId>, draws: ServerDraws, now: Time, a: Action)
    requires a in PruneAllActions(env, s, order, draws, now)
    ensures a.ConversationClosed? && a.session.Some? && a.session.value in s.sessions
    ensures IdleConversation(env, s.sessions[a.session.value], a.conv, now)
  {
    if a in PruneAllActions(env, s, order[1..], draws, now) {
      PruneAllIdle(env, s, order[1..], draws, now, a);
    } else {
      PruneActionsIdle(env, s.sessions[order[0]], order[0], ConvOrder(draws, order[0]), now, a);
    }
  }

  lemma {:induction false} RecoveryExpired(resumable: map<SessionId, Resumable>, order: seq<SessionId>, now: Time, a: Action)
    requires a in RecoveryActions(resumable, order, now)
    ensures a.SessionRecoveryExpired? && a.sid in resumable && now >= resumable[a.sid].expiresAt
  {
    if a in RecoveryActions(resumable, order[1..], now) {
      RecoveryExpired(resumable, order[1..], now, a);
    }
  }

  /** Whatever a tick reports closed or expired, it has dropped. */
  lemma ReportedDropped(env: ServerEnv, s: Server, at: Time, draws: ServerDraws, k: Key)
    requires IdsApart(s) && env.cfg.resumptionLifetime > 0
    requires TakenOut(Expire(env, s, at, draws).reply.actions, k)
    ensures k.1 !in Held(Expire(env, s, at, draws).server, k.0)
  {
    hide PruneAllActions, OverActions, RecoveryActions, RateLimit.Evict;
    var a :| a in Expire(env, s, at, draws).reply.actions && TakesOut(a, k);
    SE.OverActionsQuiet(env, s, draws.sessionOrder, at);
    if a in PruneAllActions(env, s, draws.sessionOrder, draws, at) {
      PruneAllIdle(env, s, draws.sessionOrder, draws, at, a);
    } else {
      RecoveryExpired(Recoveries(env, s, at), draws.resumableOrder, at, a);
    }
  }

  lemma RemovingAgrees(s: Server, s1: Server, t: Table, actions: seq<Action>, draws: seq<HostDraws>)
    requires Live(s, t) && ValidTable(t) && ConversationsApart(s) && |draws| == |actions|
    requires forall a :: a in actions ==> !a.DeliverToUpstream? && !a.SessionResumed?
    requires forall sid :: Held(s1, sid) <= Held(s, sid)
    requires forall k: Key :: k.1 in Held(s, k.0) ==> (k.1 !in Held(s1, k.0) <==> TakenOut(actions, k))
    ensures Agrees(s1, t, Execute(t, actions, draws).table)
  {
    ExecuteRemovals(t, actions, draws);
    var t1 := Execute(t, actions, draws).table;
    forall k, sid: SessionId | k in t.routes && k.1 in Held(s1, sid)
      ensures (sid, k.1) in t1.routes && t1.routes[(sid, k.1)] == t.routes[k]
    {
      assert Held(s1, sid) <= Held(s, sid);
      SameKey(s, k, (sid, k.1));
    }
  }

  lemma TickAgrees(env: ServerEnv, s: Server, at: Time, draws: ServerDraws, t: Table, hosts: seq<HostDraws>)
    requires IdsApart(s) && ConversationsApart(s) && Live(s, t) && ValidTable(t)
    requires VisitsAll(env, s, at, draws) && env.cfg.resumptionLifetime > 0
    requires |hosts| == |Expire(env, s, at, draws).reply.actions|
    ensures var o := Expire(env, s, at, draws);
            Agrees(o.server, t, Execute(t, o.reply.actions, hosts).table)
  {
    var o := Expire(env, s, at, draws);
    SE.PruneAllActionsQuiet(env, s, draws.sessionOrder, draws, at);
    SE.OverActionsQuiet(env, s, draws.sessionOrder, at);
    SE.RecoveryActionsQuiet(Recoveries(env, s, at), draws.resumableOrder, at);
    SS.ExpireHeld(env, s, at, draws);
    forall k: Key | k.1 in Held(s, k.0)
      ensures k.1 !in Held(o.server, k.0) <==> TakenOut(o.reply.actions, k)
    {
      if k.1 !in Held(o.server, k.0) {
        DropReported(env, s, at, draws, k);
      } else if TakenOut(o.reply.actions, k) {
        ReportedDropped(env, s, at, draws, k);
      }
    }
    RemovingAgrees(s, o.server, t, o.reply.actions, hosts);
  }

  lemma CloseAgrees(s: Server, sid: SessionId, conv: ConvId, t: Table, hosts: seq<HostDraws>)
    requires IdsApart(s) && ConversationsApart(s) && Live(s, t) && ValidTable(t)
    requires HandleClose(s, sid, conv).reply.Ok? && |hosts| == |HandleClose(s, sid, conv).reply.actions|
    ensures var o := HandleClose(s, sid, conv);
            Agrees(o.server, t, Execute(t, o.reply.actions, hosts).table)
  {
    var o := HandleClose(s, sid, conv);
    assert o.reply.actions == [ConversationClosed(Some(sid), conv)];
    forall k: Key | k.1 in Held(s, k.0)
      ensures k.1 !in Held(o.server, k.0) <==> TakenOut(o.reply.actions, k)
    {
      assert TakenOut(o.reply.actions, k) <==> k == (sid, conv) by {
        assert o.reply.actions[0] in o.reply.actions;
      }
    }
    assert forall x :: Held(o.server, x) <= Held(s, x);
    RemovingAgrees(s, o.server, t, o.reply.actions, hosts);
  }

  // ---------------------------------------------------------------- every event

  /** The engine, the host's table, and whether the main loop still runs. */
  datatype Service = Service(server: Server, table: Table, up: bool)

  /** The main loop takes an event; or the receiver of a route receives a datagram from
      upstream, or fails to (`None`). */
  datatype Input =
    | Event(event: ServerEvent, now: Time, draws: ServerDraws, hosts: seq<HostDraws>)
    | Received(key: Key, datagram: Option<seq<byte>>, at: Time)

  /** The main loop hands an event to the engine and executes the actions; an event
      that is refused ends it. */
  function TakeEvent(env: ServerEnv, v: Service, event: ServerEvent, now: Time, draws: ServerDraws, hosts: seq<HostDraws>): Service
    requires env.cfg.rateRefillInterval > 0
  {
    var o := ServerStep(env, v.server, event, now, draws);
    if o.reply.Ok? && |hosts| == |o.reply.actions| then
      var x := Execute(v.table, o.reply.actions, hosts);
      Service(o.server, x.table, x.ok)
    else Service(o.server, v.table, false)
  }

  /** A receiving task hands a reply to the engine. It drops one that no frame can
      hold, and returns if receiving fails or the engine refuses the reply. */
  function Receive(env: ServerEnv, v: Service, key: Key, datagram: Option<seq<byte>>, at: Time): Service {
    if datagram.None? then v.(table := EndTask(v.table, key))
    else if |datagram.value| > MAX_FRAME_PAYLOAD then v
    else
      var o := HandleUpstream(env, v.server, key.0, key.1, datagram.value, at);
      Service(o.server, if o.reply.Ok? then v.table else EndTask(v.table, key), v.up)
  }

  function ServiceStep(env: ServerEnv, v: Service, i: Input): Service
    requires env.cfg.rateRefillInterval > 0
  {
    match i
    case Event(event, now, draws, hosts) => TakeEvent(env, v, event, now, draws, hosts)
    case Received(key, datagram, at) => Receive(env, v, key, datagram, at)
  }

  ghost predicate ValidInput(env: ServerEnv, v: Service, i: Input)
    requires env.cfg.rateRefillInterval > 0
  {
    && v.up
    && match i
       case Event(event, now, draws, hosts) =>
         && !event.ServerDatagram?
         && SS.ValidDraws(v.server, draws) && RefreshesAll(v.server, event, draws)
         && (event.TimeAdvanced? ==> VisitsAll(env, v.server, event.at, draws))
         && var o := ServerStep(env, v.server, event, now, draws);
            (o.reply.Ok? ==> ValidHost(v.table, o.reply.actions, hosts))
       case Received(key, _, _) => key in v.table.tasks && v.table.tasks[key].running
  }

  /** Records, hellos and upstream datagrams: nothing is dropped, and whatever is
      delivered goes to a conversation that is held. */
  ghost predicate Adds(s: Server, o: ServerOutcome) {
    Keeps(s, o.server) && RecordActions(o.reply)
  }

  lemma AdmitAdds(env: ServerEnv, s: Server, peer: PeerId, hello: ClientHello, now: Time, draws: ServerDraws)
    ensures var o := AdmitHello(env, s, peer, hello, now, draws);
            o.server.sessions == s.sessions && o.server.resumable == s.resumable && RecordActions(o.reply)
  {
  }

  lemma HelloAdds(env: ServerEnv, s: Server, peer: PeerId, hello: ClientHello, now: Time, draws: ServerDraws)
    requires env.cfg.rateRefillInterval > 0
    ensures Adds(s, HandleClientHello(env, s, peer, hello, now, draws))
  {
    var s1 := s.(buckets := RateLimit.TryAttempt(Limits(env.cfg), s.buckets, peer, now).buckets);
    AdmitAdds(env, s1, peer, hello, now, draws);
    AdmitAdds(env, WithOrigin(s1, now), peer, hello, now, draws);
    StayAdds(s, HandleClientHello(env, s, peer, hello, now, draws));
  }

  lemma StayAdds(s: Server, o: ServerOutcome)
    requires o.server.sessions == s.sessions && o.server.resumable == s.resumable && RecordActions(o.reply)
    ensures Adds(s, o)
  {
  }

  lemma UpstreamAdds(env: ServerEnv, s: Server, sid: SessionId, conv: ConvId, payload: seq<byte>, now: Time)
    ensures Adds(s, HandleUpstream(env, s, sid, conv, payload, now))
  {
  }

  predicate Finishes(env: ServerEnv, s: Server, event: ServerEvent) {
    event.TunnelFrame? && event.frame.FinishMsg? && event.frame.sid !in s.sessions
    && FinishRefusal(env, s, event.from, event.frame.sid, event.frame.finish).None?
  }

  lemma FinishAdds(env: ServerEnv, s: Server, event: ServerEvent, now: Time)
    requires event.TunnelFrame? && event.frame.FinishMsg? && !Finishes(env, s, event)
    ensures Adds(s, HandleClientFinish(env, s, event.from, event.frame.sid, event.frame.finish, now))
  {
    StayAdds(s, HandleClientFinish(env, s, event.from, event.frame.sid, event.frame.finish, now));
  }

  lemma FrameAdds(env: ServerEnv, s: Server, event: ServerEvent, now: Time, draws: ServerDraws)
    requires env.cfg.rateRefillInterval > 0 && event.TunnelFrame? && !Finishes(env, s, event)
    ensures Adds(s, HandleTunnel(env, s, event.from, event.frame, now, draws))
  {
    match event.frame
    case HelloMsg(hello) => HelloAdds(env, s, event.from, hello, now, draws);
    case FinishMsg(_, _) => FinishAdds(env, s, event, now);
    case RecordMsg(header, _) =>
      if IsProtected(header.ftype) {
        RecordKeeps(env, s, event.from, event.frame, now, draws);
      } else {
        StayAdds(s, Refuse(s, UnexpectedMessage));
      }
    case Undecodable => StayAdds(s, Refuse(s, Malformed));
    case _ => StayAdds(s, Refuse(s, UnexpectedMessage));
  }

  lemma EventAdds(env: ServerEnv, s: Server, event: ServerEvent, now: Time, draws: ServerDraws)
    requires env.cfg.rateRefillInterval > 0 && !event.TimeAdvanced? && !Finishes(env, s, event)
    requires event.CloseConversation? ==> !ServerStep(env, s, event, now, draws).reply.Ok?
    ensures Adds(s, ServerStep(env, s, event, now, draws))
  {
    match event
    case TunnelFrame(_, _) => FrameAdds(env, s, event, now, draws);
    case ServerDatagram(sid, conv, payload) => UpstreamAdds(env, s, sid, conv, payload, now);
    case CloseConversation(_, _) => StayAdds(s, ServerStep(env, s, event, now, draws));
    case ClientOnly => StayAdds(s, ServerStep(env, s, event, now, draws));
    case TimeAdvanced(_) => assert false;
  }

  lemma DeliveredHeld(env: ServerEnv, s: Server, s1: Server, a: Action, event: ServerEvent)
    requires SessionTable(env, s1.sessions) && a.DeliverToUpstream?
    requires SE.DeliveredFor(s, s1, a.sid, a.conv, a.payload, event)
    ensures a.conv in Held(s1, a.sid)
  {
    assert SessionSound(env, s1.sessions[a.sid], a.sid);
  }

  lemma AddingStep(env: ServerEnv, s: Server, t: Table, event: ServerEvent, now: Time, draws: ServerDraws, hosts: seq<HostDraws>)
    requires ServerInv(env, s) && ValidConfig(env.cfg) && SS.ValidDraws(s, draws) && Live(s, t) && ValidTable(t)
    requires var o := ServerStep(env, s, event, now, draws);
             Adds(s, o) && (o.reply.Ok? ==> ValidHost(t, o.reply.actions, hosts))
    ensures var o := ServerStep(env, s, event, now, draws);
            Agrees(o.server, t, if o.reply.Ok? then Execute(t, o.reply.actions, hosts).table else t)
  {
    var o := ServerStep(env, s, event, now, draws);
    SS.ServerStepKeeps(env, s, event, now, draws);
    SE.ServerStepEffect(env, s, event, now, draws);
    if o.reply.Ok? {
      forall a | a in o.reply.actions && a.DeliverToUpstream?
        ensures a.conv in Held(o.server, a.sid)
      {
        DeliveredHeld(env, s, o.server, a, event);
      }
      AddingAgrees(s, o.server, t, o.reply.actions, hosts);
    } else {
      AddingAgrees(s, o.server, t, [], []);
    }
  }

  lemma FinishingStep(env: ServerEnv, s: Server, t: Table, event: ServerEvent, now: Time, draws: ServerDraws, hosts: seq<HostDraws>)
    requires IdsApart(s) && ConversationsApart(s) && Live(s, t) && ValidTable(t)
    requires env.cfg.rateRefillInterval > 0 && Finishes(env, s, event)
    requires ValidHost(t, FinishActions(env, s.pending[event.frame.sid], event.frame.sid, event.from), hosts)
    ensures var o := ServerStep(env, s, event, now, draws);
            && o.reply == Ok(FinishActions(env, s.pending[event.frame.sid], event.frame.sid, event.from))
            && Agrees(o.server, t, Execute(t, o.reply.actions, hosts).table)
  {
    var sid := event.frame.sid;
    if s.pending[sid].resumeFrom.Some? {
      ResumedAgrees(env, s, event.from, sid, event.frame.finish, now, t, hosts);
    } else {
      NewSessionAgrees(env, s, event.from, sid, event.frame.finish, now, t, hosts);
    }
  }

  ghost predicate ServiceInv(env: ServerEnv, v: Service) {
    ServerInv(env, v.server) && ValidTable(v.table) && Live(v.server, v.table)
  }

  lemma EventAgrees(env: ServerEnv, v: Service, i: Input)
    requires ServiceInv(env, v) && ValidConfig(env.cfg) && ValidInput(env, v, i) && i.Event?
    ensures var v1 := ServiceStep(env, v, i);
            ServiceInv(env, v1) && Agrees(v1.server, v.table, v1.table)
  {
    SS.ServerStepKeeps(env, v.server, i.event, i.now, i.draws);
    if i.event.TimeAdvanced? {
      TickAgrees(env, v.server, i.event.at, i.draws, v.table, i.hosts);
    } else if Finishes(env, v.server, i.event) {
      FinishingStep(env, v.server, v.table, i.event, i.now, i.draws, i.hosts);
    } else if i.event.CloseConversation? && ServerStep(env, v.server, i.event, i.now, i.draws).reply.Ok? {
      CloseAgrees(v.server, i.event.session.value, i.event.conv, v.table, i.hosts);
    } else {
      EventAdds(env, v.server, i.event, i.now, i.draws);
      AddingStep(env, v.server, v.table, i.event, i.now, i.draws, i.hosts);
    }
  }

  lemma EndTaskValid(t: Table, key: Key)
    requires ValidTable(t)
    ensures ValidTable(EndTask(t, key)) && EndTask(t, key).routes == t.routes
  {
    var t1 := EndTask(t, key);
    forall a, b
      ensures OneSocketEach(t1, a, b)
    {
      assert OneSocketEach(t, a, b);
    }
  }

  /** A reply leaves the conversations and the routes alone. */
  lemma SameHeldLive(s: Server, s1: Server, t: Table, t1: Table)
    requires Live(s, t) && t1.routes == t.routes && forall sid :: Held(s1, sid) == Held(s, sid)
    ensures Live(s1, t1)
  {
  }

  lemma ReplyAgrees(env: ServerEnv, v: Service, key: Key, datagram: Option<seq<byte>>, at: Time)
    requires ServiceInv(env, v)
    ensures var v1 := Receive(env, v, key, datagram, at);
            ServiceInv(env, v1) && v1.table.routes == v.table.routes && forall sid :: Held(v1.server, sid) == Held(v.server, sid)
  {
    hide ServerInv, Live, Held, ValidTable, HandleUpstream, EndTask;
    EndTaskValid(v.table, key);
    if datagram.Some? {
      SS.HandleUpstreamKeeps(env, v.server, key.0, key.1, datagram.value, at);
      UpstreamHolds(env, v.server, key.0, key.1, datagram.value, at);
    }
    var v1 := Receive(env, v, key, datagram, at);
    SameHeldLive(v.server, v1.server, v.table, v1.table);
  }

  lemma UpstreamHolds(env: ServerEnv, s: Server, sid: SessionId, conv: ConvId, payload: seq<byte>, now: Time)
    ensures forall x :: Held(HandleUpstream(env, s, sid, conv, payload, now).server, x) == Held(s, x)
  {
    hide Seal;
  }

  /** A conversation routed before and after, be it under another session, keeps its
      socket. */
  lemma SocketsKept(env: ServerEnv, v: Service, v1: Service)
    requires ServiceInv(env, v) && v1.table.routes == v.table.routes && forall sid :: Held(v1.server, sid) == Held(v.server, sid)
    ensures Follows(v1.server, v.table, v1.table)
  {
    forall k, sid: SessionId | k in v.table.routes && k.1 in Held(v1.server, sid)
      ensures (sid, k.1) in v1.table.routes && v1.table.routes[(sid, k.1)] == v.table.routes[k]
    {
      assert Held(v1.server, sid) == Held(v.server, sid);
      SameKey(v.server, k, (sid, k.1));
    }
  }

  /** One input: afterwards every route is live, and a conversation routed before
      and after, be it under another session, keeps its socket. */
  lemma ServiceStepAgrees(env: ServerEnv, v: Service, i: Input)
    requires ServiceInv(env, v) && ValidConfig(env.cfg) && ValidInput(env, v, i)
    ensures var v1 := ServiceStep(env, v, i);
            ServiceInv(env, v1) && Follows(v1.server, v.table, v1.table)
  {
    match i
    case Event(_, _, _, _) => EventAgrees(env, v, i);
    case Received(key, datagram, at) =>
      ReplyAgrees(env, v, key, datagram, at);
      SocketsKept(env, v, Receive(env, v, key, datagram, at));
  }

  // ---------------------------------------------------------------- whole runs

  function ServiceRun(env: ServerEnv, inputs: seq<Input>): Service
    requires env.cfg.rateRefillInterval > 0
  {
    if inputs == [] then Service(NewServer(), Table(map[], map[]), true)
    else ServiceStep(env, ServiceRun(env, inputs[..|inputs| - 1]), inputs[|inputs| - 1])
  }

  ghost predicate ValidInputs(env: ServerEnv, inputs: seq<Input>)
    requires env.cfg.rateRefillInterval > 0
  {
    inputs != [] ==>
      && ValidInputs(env, inputs[..|inputs| - 1])
      && ValidInput(env, ServiceRun(env, inputs[..|inputs| - 1]), inputs[|inputs| - 1])
  }

  /** After any run every route key is a live conversation of the engine with a task
      entry for its own socket, and no two conversations share one. */
  lemma {:induction false} RoutesAgree(env: ServerEnv, inputs: seq<Input>)
    requires ValidConfig(env.cfg) && ValidInputs(env, inputs)
    ensures ServiceInv(env, ServiceRun(env, inputs))
    decreases |inputs|
  {
    if inputs == [] {
      SS.NewServerInv(env);
    } else {
      RoutesAgree(env, inputs[..|inputs| - 1]);
      ServiceStepAgrees(env, ServiceRun(env, inputs[..|inputs| - 1]), inputs[|inputs| - 1]);
    }
  }
}
