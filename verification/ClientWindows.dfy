/** The replay window of the client's session, event by event. */
module ClientWindows {
  import opened Base
  import opened Messages
  import opened ReplaySpec
  import opened Sessions
  import opened ClientSpec
  import opened ClientInvariants

  /** The event's record goes through the window. */
  ghost predicate Admits(w0: Window, w1: Window, event: ClientEvent) {
    event.TunnelFrame? && event.frame.RecordMsg? && Accept(w0, event.frame.header.number) == Accepted(w1)
  }

  /** The window stays, admits the event's record, or starts empty. */
  ghost predicate WindowMoves(env: ClientEnv, c0: Client, c1: Client, event: ClientEvent) {
    c1.session.Some? ==>
      var w1 := c1.session.value.opener.window;
      if c0.session.Some? then w1 == c0.session.value.opener.window || Admits(c0.session.value.opener.window, w1, event)
      else w1 == NewWindow(env.cfg.replayWindowSize)
  }

  /** A reply delivers nothing, or is one delivery of a record that the window
      has just admitted. */
  ghost predicate DeliversOnce(c0: Client, o: ClientOutcome, event: ClientEvent) {
    o.reply.Ok? ==>
      || (forall a :: a in o.reply.actions ==> !a.DeliverToClient?)
      || (&& |o.reply.actions| == 1 && c0.session.Some? && o.client.session.Some?
          && Admits(c0.session.value.opener.window, o.client.session.value.opener.window, event))
  }

  ghost predicate WindowSound(env: ClientEnv, c0: Client, o: ClientOutcome, event: ClientEvent) {
    WindowMoves(env, c0, o.client, event) && DeliversOnce(c0, o, event)
  }

  /** The opener stays as it is and nothing is delivered. */
  ghost predicate Unopened(c0: Client, c1: Client, actions: seq<Action>) {
    && (c1.session.Some? ==> c0.session.Some? && c1.session.value.opener == c0.session.value.opener)
    && (forall a :: a in actions ==> !a.DeliverToClient?)
  }

  lemma SendDataUnopened(env: ClientEnv, c: Client, d: Datagram, now: Time, draw: Option<ConvId>)
    ensures var o := SendData(env, c, d, now, draw);
            Unopened(c, o.client, if o.reply.Ok? then o.reply.actions else [])
  {
  }

  lemma {:induction false} FlushUnopened(env: ClientEnv, c: Client, now: Time, draws: ClientDraws, convs: seq<Option<ConvId>>)
    requires c.mode.Ready? && !Stale(env, c, now)
    ensures var p := Flush(env, c, now, draws, convs); Unopened(c, p.client, p.actions)
    decreases |c.queue|
  {
    if c.queue != [] {
      var head := FlushHead(env, c, now, draws, DrawAt(convs));
      SendDataUnopened(env, c.(queue := c.queue[1..]), c.queue[0].datagram, now, DrawAt(convs));
      assert Unopened(c, head.client, head.actions);
      FlushUnopened(env, head.client, now, draws, DrawsAfter(convs));
    }
  }

  lemma AcceptAckUnopened(env: ClientEnv, c: Client, session: ClientSession, now: Time, draws: ClientDraws)
    requires env.cfg.sessionTimeout > 0 && c.session == Some(session)
    ensures var o := AcceptAck(env, c, session, now, draws);
            Unopened(c, o.client, if o.reply.Ok? then o.reply.actions else [])
  {
    var c1 := Acknowledged(c, session, now);
    RebindKeeps(env, c1.session.value, c1.byPeer, draws.order);
    ClosedAllCloses(c.byPeer, draws.order);
    var r := if session.resumed then Rebind(env, c1.session.value, c1.byPeer, draws.order)
             else ReboundOk(c1.session.value, []);
    if r.ReboundOk? {
      FlushUnopened(env, c1.(session := Some(r.session)), now, draws, draws.convs);
    }
  }

  lemma RecordWindow(env: ClientEnv, c: Client, from: PeerId, frame: Frame, now: Time, draws: ClientDraws)
    requires env.cfg.sessionTimeout > 0
    ensures WindowSound(env, c, HandleRecord(env, c, frame, now, draws), TunnelFrame(from, frame))
  {
    if c.session.Some? && Open(c.session.value.opener, frame).OpenOk? && frame.header.ftype.HandshakeAck? && IsHandshaking(c) {
      var session := c.session.value.(opener := Open(c.session.value.opener, frame).opener);
      AcceptAckUnopened(env, c.(session := Some(session)), session, now, draws);
    }
  }

  lemma FrameWindow(env: ClientEnv, c: Client, event: ClientEvent, now: Time, draws: ClientDraws)
    requires ClientInv(env, c) && env.cfg.sessionTimeout > 0 && event.TunnelFrame?
    ensures WindowSound(env, c, HandleTunnel(env, c, event.from, event.frame, now, draws), event)
  {
    var frame := event.frame;
    if event.from == env.serverPeer && !frame.RetryMsg? && !frame.ServerHelloMsg? && !frame.Undecodable? {
      RecordWindow(env, c, event.from, frame, now, draws);
    }
  }

  lemma LocalWindow(env: ClientEnv, c: Client, d: Datagram, now: Time, draws: ClientDraws)
    ensures WindowSound(env, c, HandleLocal(env, c, d, now, DrawAt(draws.convs), draws), ClientDatagram(d))
  {
    hide SendData, OfferedCredential;
    SendDataUnopened(env, c, d, now, DrawAt(draws.convs));
  }

  lemma {:induction false} DropAllUndelivered(queue: seq<Queued>, reason: DropReason)
    ensures forall a :: a in DropAll(queue, reason) ==> !a.DeliverToClient?
  {
    if queue != [] {
      DropAllUndelivered(queue[1..], reason);
    }
  }

  lemma {:induction false} ConversationsUnopened(env: ClientEnv, c: Client, now: Time, order: seq<LocalPeer>)
    ensures var p := ExpireConversations(env, c, now, order); Unopened(c, p.client, p.actions)
    decreases |order|
  {
    if order != [] {
      if order[0] in c.byPeer && IdleConversation(env, c.byPeer[order[0]], now) {
        ConversationsUnopened(env, Forget(c, order[0], c.byPeer[order[0]].id), now, order[1..]);
      } else {
        ConversationsUnopened(env, c, now, order[1..]);
      }
    }
  }

  lemma TickWindow(env: ClientEnv, c: Client, at: Time, draws: ClientDraws)
    ensures WindowSound(env, c, Answer(Expire(env, c, at, draws)), TimeAdvanced(at))
  {
    var p := ExpireHandshake(env, c, at);
    DropAllUndelivered(c.queue, ConnectionClosed);
    var n := ExpiredPrefix(env, p.client.queue, at);
    DropAllUndelivered(p.client.queue[..n], ReconnectQueueExpired);
    ConversationsUnopened(env, ExpireQueue(env, p.client, at).client, at, draws.order);
  }

  lemma ClientStepWindow(env: ClientEnv, c: Client, event: ClientEvent, now: Time, draws: ClientDraws)
    requires ClientInv(env, c) && env.cfg.sessionTimeout > 0
    ensures WindowSound(env, c, ClientStep(env, c, event, now, draws), event)
  {
    match event
    case TunnelFrame(_, _) => FrameWindow(env, c, event, now, draws);
    case ClientDatagram(d) => LocalWindow(env, c, d, now, draws);
    case TimeAdvanced(at) => TickWindow(env, c, at, draws);
    case _ =>
  }
}
