/** The acknowledgement: the client becomes ready, rebinds what it resumed and
    drains its queue, and no error path leaves the queue behind. */
module ClientAck {
  import opened Base
  import opened Protocol
  import opened Messages
  import opened Sessions
  import opened ClientSpec
  import opened ClientInvariants
  import opened ClientSending
  import opened ClientSteps

  /** With room in both counters, rebinding cannot fail half-way. */
  lemma {:induction false} RebindSucceeds(env: ClientEnv, session: ClientSession, byPeer: map<LocalPeer, Conversation>,
                                          order: seq<LocalPeer>)
    requires AllocateOnly(session.handles)
    requires session.handles.next + |order| <= U32_MAX && session.sealer.next + |order| <= U64_MAX
    ensures Rebind(env, session, byPeer, order).ReboundOk?
    decreases |order|
  {
    if order != [] {
      if order[0] in byPeer && byPeer[order[0]].ticket.Some?
         && Some(byPeer[order[0]].ticket.value.source) == session.source {
        var conv := byPeer[order[0]];
        var a := Allocate(session.handles, conv.id);
        var f := Seal(session.sealer, ResumeConversation, Some(a.handle), CredentialBytes(conv.ticket.value.credential));
        RebindSucceeds(env, session.(handles := a.table, sealer := f.sealer), byPeer, order[1..]);
      } else {
        RebindSucceeds(env, session, byPeer, order[1..]);
      }
    }
  }

  lemma FlushHeadOnlyRecords(env: ClientEnv, c: Client, now: Time, draws: ClientDraws, draw: Option<ConvId>)
    requires c.mode.Ready? && !Stale(env, c, now) && c.queue != []
    ensures OnlyRecords(FlushHead(env, c, now, draws, draw).actions)
  {
    SendActions(env, c.(queue := c.queue[1..]), c.queue[0].datagram, now, draw);
  }

  lemma {:induction false} FlushOnlyRecords(env: ClientEnv, c: Client, now: Time, draws: ClientDraws, convs: seq<Option<ConvId>>)
    requires c.mode.Ready? && !Stale(env, c, now)
    ensures OnlyRecords(Flush(env, c, now, draws, convs).actions)
    decreases |c.queue|
  {
    if c.queue != [] {
      FlushHeadOnlyRecords(env, c, now, draws, DrawAt(convs));
      FlushOnlyRecords(env, FlushHead(env, c, now, draws, DrawAt(convs)).client, now, draws, DrawsAfter(convs));
    }
  }

  /** The state after the acknowledgement has been taken and before anything is
      sent. */
  lemma AcknowledgedSound(env: ClientEnv, c: Client, session: ClientSession, now: Time)
    requires ClientInv(env, c) && IsHandshaking(c) && c.session == Some(session)
    ensures var a := Acknowledged(c, session, now);
            && Sound(env, a) && a.mode.Ready? && a.session.Some? && a.queue == c.queue
            && a.session.value == session.(lastReceivedAt := now)
            && ((a.byPeer == c.byPeer && a.byId == c.byId) || (a.byPeer == map[] && a.byId == map[]))
  {
  }

  ghost predicate AckShape(env: ClientEnv, c: Client, session: ClientSession, now: Time, draws: ClientDraws) {
    && ClientInv(env, c) && IsHandshaking(c) && c.session == Some(session)
    && ClientLimits(env) && ValidDraws(c, draws)
  }

  /** Sending everything that waited for the acknowledgement. */
  lemma AcknowledgedGrows(env: ClientEnv, a: Client, now: Time, draws: ClientDraws, resumed: bool)
    requires Sound(env, a) && a.mode.Ready? && a.session.Some? && !Stale(env, a, now)
    requires FreshDraws(draws.convs, a.byId.Keys)
    requires a.session.value.handles.next + |draws.order| <= U32_MAX
    requires a.session.value.sealer.next + |draws.order| <= U64_MAX
    ensures var r := if resumed then Rebind(env, a.session.value, a.byPeer, draws.order) else ReboundOk(a.session.value, []);
            && r.ReboundOk?
            && var b := a.(session := Some(r.session));
               && !Stale(env, b, now) && OnlyRecords(r.actions)
               && var p := Flush(env, b, now, draws, draws.convs);
                  && Sound(env, p.client) && OnlyRecords(p.actions)
                  && Grows(a, p.client, Records(r.actions) + Records(p.actions), p.fates)
                  && OnlyDrawn(a, p.client, draws.convs)
  {
    var r := if resumed then Rebind(env, a.session.value, a.byPeer, draws.order) else ReboundOk(a.session.value, []);
    var b := a.(session := Some(r.session));
    ReboundGrows(env, a, draws.order, resumed);
    RebindKeeps(env, a.session.value, a.byPeer, draws.order);
    FlushedGrows(env, a, b, Records(r.actions), now, draws);
  }

  lemma FlushedGrows(env: ClientEnv, a: Client, b: Client, frames: seq<Frame>, now: Time, draws: ClientDraws)
    requires Sound(env, b) && b.mode.Ready? && b.session.Some? && !Stale(env, b, now)
    requires b.byId == a.byId && FreshDraws(draws.convs, a.byId.Keys)
    requires Grows(a, b, frames, [])
    ensures var p := Flush(env, b, now, draws, draws.convs);
            && Sound(env, p.client) && OnlyRecords(p.actions)
            && Grows(a, p.client, frames + Records(p.actions), p.fates)
            && OnlyDrawn(a, p.client, draws.convs)
  {
    FlushGrows(env, b, now, draws, draws.convs);
    FlushOnlyRecords(env, b, now, draws, draws.convs);
    var p := Flush(env, b, now, draws, draws.convs);
    GrowsTransitive(a, b, p.client, frames, [], Records(p.actions), p.fates);
    assert [] + p.fates == p.fates;
  }

  lemma ReboundGrows(env: ClientEnv, a: Client, order: seq<LocalPeer>, resumed: bool)
    requires Sound(env, a) && a.session.Some?
    requires a.session.value.handles.next + |order| <= U32_MAX && a.session.value.sealer.next + |order| <= U64_MAX
    ensures var r := if resumed then Rebind(env, a.session.value, a.byPeer, order) else ReboundOk(a.session.value, []);
            var b := a.(session := Some(r.session));
            r.ReboundOk? && OnlyRecords(r.actions) && Sound(env, b) && Grows(a, b, Records(r.actions), [])
  {
    if resumed {
      RebindSucceeds(env, a.session.value, a.byPeer, order);
      RebindGrows(env, a, order);
      RebindKeeps(env, a.session.value, a.byPeer, order);
    } else {
      assert a.(session := Some(a.session.value)) == a;
    }
  }

  /** Records only, nothing delivered, and this one session reported. */
  ghost predicate Reports(actions: seq<Action>, report: Action) {
    forall a :: a in actions ==>
      !a.DeliverToClient? && (a.SendFrame? ==> a.frame.RecordMsg?) && (a.SessionEstablished? ==> a == report)
  }

  function Report(env: ClientEnv, session: ClientSession): Action {
    SessionEstablished(env.serverPeer, session.id, env.cfg.suite, session.resumed)
  }

  lemma AckRecords(pre: seq<Action>, bound: seq<Action>, flushed: seq<Action>, last: Action, report: Action)
    requires forall a :: a in pre ==> !a.SendFrame? && !a.DeliverToClient? && (a.SessionEstablished? ==> a == report)
    requires last.ScheduleTimer? && OnlyRecords(bound) && OnlyRecords(flushed)
    ensures Records(pre + bound + flushed + [last]) == Records(bound) + Records(flushed)
    ensures Reports(pre + bound + flushed + [last], report)
  {
    NoRecords(pre);
    NoRecords([last]);
    RecordsConcat(pre, bound);
    RecordsConcat(pre + bound, flushed);
    RecordsConcat(pre + bound + flushed, [last]);
  }

  lemma AcceptAckOutcome(env: ClientEnv, c: Client, session: ClientSession, now: Time, draws: ClientDraws)
    requires AckShape(env, c, session, now, draws)
    ensures var o := AcceptAck(env, c, session, now, draws);
            var a := Acknowledged(c, session, now);
            && o.reply.Ok? && Sound(env, o.client) && o.client.queue == [] && o.client.mode.Ready?
            && Grows(a, o.client, SentRecords(o.reply), o.fates)
            && OnlyDrawn(a, o.client, draws.convs)
            && Reports(o.reply.actions, Report(env, session))
  {
    hide Grows, OnlyDrawn, Reports, Rebind, ClosedAll, Tables, SessionSound;
    var a := Acknowledged(c, session, now);
    AcknowledgedSound(env, c, session, now);
    EnumerationLength(draws.order, c.byPeer.Keys);
    AcknowledgedGrows(env, a, now, draws, session.resumed);
    ClosedAllCloses(c.byPeer, draws.order);
    var r := if session.resumed then Rebind(env, a.session.value, a.byPeer, draws.order) else ReboundOk(a.session.value, []);
    var p := Flush(env, a.(session := Some(r.session)), now, draws, draws.convs);
    var declined := c.handshake.value.hello.resumption.Some? && !session.resumed;
    var closed := if declined then ClosedAll(c.byPeer, draws.order) else [];
    var established := [SessionEstablished(env.serverPeer, session.id, env.cfg.suite, session.resumed)];
    AckRecords(closed + established, r.actions, p.actions, ScheduleTimer(env.cfg.sessionTimeout), Report(env, session));
    assert AcceptAck(env, c, session, now, draws)
        == ClientOutcome(p.client,
                         Ok(closed + established + r.actions + p.actions + [ScheduleTimer(env.cfg.sessionTimeout)]), p.fates);
  }

  /** Accepting the acknowledgement keeps the invariants. */
  lemma AcceptAckKeeps(env: ClientEnv, c: Client, session: ClientSession, now: Time, draws: ClientDraws)
    requires AckShape(env, c, session, now, draws)
    ensures var o := AcceptAck(env, c, session, now, draws);
            && o.reply.Ok? && ClientInv(env, o.client) && Reports(o.reply.actions, Report(env, session))
            && Evolves(c, o.client, draws, SentRecords(o.reply), o.fates)
            && (forall event :: TicketsEvolve(c, o.client, event))
            && KeyOf(o.client.session.value) == KeyOf(session)
  {
    var o := AcceptAck(env, c, session, now, draws);
    AcceptAckOutcome(env, c, session, now, draws);
    AcknowledgedSound(env, c, session, now);
    AcknowledgedEvolves(env, c, session, now, o.client, draws, SentRecords(o.reply), o.fates);
  }

  lemma AcknowledgedEvolves(env: ClientEnv, c: Client, session: ClientSession, now: Time, c1: Client, draws: ClientDraws,
                            frames: seq<Frame>, fates: seq<Fate>)
    requires c.session == Some(session) && FreshDraws(draws.convs, c.byId.Keys)
    requires Tables(c.byPeer, c.byId)
    requires var a := Acknowledged(c, session, now);
             && Grows(a, c1, frames, fates) && OnlyDrawn(a, c1, draws.convs)
             && a.session.Some? && a.session.value == session.(lastReceivedAt := now)
             && ((a.byPeer == c.byPeer && a.byId == c.byId) || (a.byPeer == map[] && a.byId == map[]))
    requires c1.handshake.None?
    ensures Evolves(c, c1, draws, frames, fates)
    ensures forall event :: TicketsEvolve(c, c1, event)
  {
    var a := Acknowledged(c, session, now);
    forall id | id in c.byId && id in c1.byId
      ensures c1.byId[id] == c.byId[id]
    {
      if id !in a.byId {
        assert false;
      }
    }
  }
}
