/** Where a client's hello and its session come from. */
module ClientHandshakes {
  import opened Base
  import opened Messages
  import opened Sessions
  import opened ClientSpec
  import opened ClientInvariants
  import CT = ClientTimers

  /** Some conversation holds this credential. */
  ghost predicate Holds(c: Client, credential: Credential) {
    exists p :: p in c.byPeer && c.byPeer[p].ticket.Some? && c.byPeer[p].ticket.value.credential == credential
  }

  /** The hello stays, takes a cookie from a retry that verifies, or is new: without
      a cookie, and with no credential but one the client holds. */
  ghost predicate HelloEvolves(env: ClientEnv, c0: Client, c1: Client, event: ClientEvent) {
    c1.handshake.Some? ==>
      var hello := c1.handshake.value.hello;
      || (c0.handshake.Some? && hello == c0.handshake.value.hello)
      || (&& event.TunnelFrame? && event.frame.RetryMsg? && c0.handshake.Some?
          && RetryProblem(env.psk, event.frame.retry, c0.handshake.value.hello).None?
          && hello == c0.handshake.value.hello.(cookie := Some(event.frame.retry.body.cookie)))
      || (hello.cookie.None? && (hello.resumption.Some? ==> Holds(c0, hello.resumption.value)))
  }

  /** A session arises only from a server hello that verifies under the pending hello. */
  ghost predicate SessionArises(env: ClientEnv, c0: Client, c1: Client, event: ClientEvent) {
    c1.session.Some? && c0.session.None? ==>
      && event.TunnelFrame? && event.frame.ServerHelloMsg? && c0.handshake.Some?
      && ServerHelloProblem(env.psk, event.frame.serverHello, c0.handshake.value.hello, event.frame.sid).None?
      && KeyOf(c1.session.value) == SessionKey(env.psk, c0.handshake.value.hello, event.frame.serverHello, event.frame.sid)
  }

  lemma {:induction false} FirstTicketHeld(c: Client, order: seq<LocalPeer>)
    ensures FirstTicket(c.byPeer, order).Some? ==> Holds(c, FirstTicket(c.byPeer, order).value.credential)
  {
    if order != [] && !(order[0] in c.byPeer && c.byPeer[order[0]].ticket.Some?) {
      FirstTicketHeld(c, order[1..]);
    }
  }

  lemma ReconnectEvolves(env: ClientEnv, c: Client, now: Time, draws: ClientDraws, event: ClientEvent)
    ensures var p := BeginReconnect(env, c, now, draws);
            HelloEvolves(env, c, p.client, event) && p.client.session.None? && p.client.byPeer == c.byPeer
  {
    FirstTicketHeld(c, draws.order);
  }

  lemma LocalEvolves(env: ClientEnv, c: Client, d: Datagram, now: Time, draw: Option<ConvId>, draws: ClientDraws, event: ClientEvent)
    ensures var o := HandleLocal(env, c, d, now, draw, draws);
            HelloEvolves(env, c, o.client, event) && (c.session.None? ==> o.client.session.None?)
  {
    hide BeginReconnect, Seal, Allocate, HelloEvolves;
    ReconnectEvolves(env, c, now, draws, event);
    SendEvolves(env, c, d, now, draw, event);
    QueuedEvolves(env, c, BeginReconnect(env, c, now, draws).client, d, now, event);
    KeptEvolves(env, c, c, event);
    QueuedEvolves(env, c, c, d, now, event);
  }

  lemma KeptEvolves(env: ClientEnv, c0: Client, c1: Client, event: ClientEvent)
    requires c1.handshake.Some? ==> c0.handshake.Some? && c1.handshake.value.hello == c0.handshake.value.hello
    ensures HelloEvolves(env, c0, c1, event)
  {
  }

  lemma QueuedEvolves(env: ClientEnv, c0: Client, c1: Client, d: Datagram, now: Time, event: ClientEvent)
    requires HelloEvolves(env, c0, c1, event)
    ensures var p := Enqueue(env, c1, d, now); HelloEvolves(env, c0, p.client, event) && p.client.session == c1.session
  {
  }

  lemma SendEvolves(env: ClientEnv, c: Client, d: Datagram, now: Time, draw: Option<ConvId>, event: ClientEvent)
    ensures var o := SendData(env, c, d, now, draw);
            HelloEvolves(env, c, o.client, event) && (c.session.None? ==> o.client.session.None?)
  {
    hide Seal, Allocate;
  }

  lemma RecordEvolves(env: ClientEnv, c: Client, frame: Frame, now: Time, draws: ClientDraws, event: ClientEvent)
    requires env.cfg.sessionTimeout > 0
    ensures var o := HandleRecord(env, c, frame, now, draws);
            HelloEvolves(env, c, o.client, event) && (c.session.None? ==> o.client.session.None?)
  {
    hide AcceptAck, HelloEvolves;
    var o := HandleRecord(env, c, frame, now, draws);
    if c.session.Some? && Open(c.session.value.opener, frame).OpenOk? {
      var session := c.session.value.(opener := Open(c.session.value.opener, frame).opener);
      CT.AcceptAckEnds(env, c.(session := Some(session)), session, now, draws);
    }
    KeptEvolves(env, c, o.client, event);
  }

  lemma TunnelEvolves(env: ClientEnv, c: Client, event: ClientEvent, now: Time, draws: ClientDraws)
    requires env.cfg.sessionTimeout > 0 && event.TunnelFrame?
    ensures var o := HandleTunnel(env, c, event.from, event.frame, now, draws);
            HelloEvolves(env, c, o.client, event) && SessionArises(env, c, o.client, event)
  {
    hide HandleRecord;
    RecordEvolves(env, c, event.frame, now, draws, event);
  }

  lemma {:induction false} ConversationsEvolve(env: ClientEnv, c: Client, now: Time, order: seq<LocalPeer>)
    ensures var p := ExpireConversations(env, c, now, order);
            p.client.handshake == c.handshake && (c.session.None? ==> p.client.session.None?)
    decreases |order|
  {
    if order != [] {
      var c1 := if order[0] in c.byPeer && IdleConversation(env, c.byPeer[order[0]], now)
                then Forget(c, order[0], c.byPeer[order[0]].id) else c;
      ConversationsEvolve(env, c1, now, order[1..]);
    }
  }

  lemma TickEvolves(env: ClientEnv, c: Client, now: Time, draws: ClientDraws, event: ClientEvent)
    ensures var p := Expire(env, c, now, draws);
            HelloEvolves(env, c, p.client, event) && (c.session.None? ==> p.client.session.None?)
  {
    hide ExpireConversations, HelloEvolves, DropAll, LostAll;
    var p := ExpireHandshake(env, c, now);
    ConversationsEvolve(env, ExpireQueue(env, p.client, now).client, now, draws.order);
    KeptEvolves(env, c, Expire(env, c, now, draws).client, event);
  }

  /** Every event. */
  lemma ClientStepEvolves(env: ClientEnv, c: Client, event: ClientEvent, now: Time, draws: ClientDraws)
    requires env.cfg.sessionTimeout > 0
    ensures var o := ClientStep(env, c, event, now, draws);
            HelloEvolves(env, c, o.client, event) && SessionArises(env, c, o.client, event)
  {
    hide HandleTunnel, HandleLocal, Expire, BeginReconnect;
    match event
    case TunnelFrame(_, _) => TunnelEvolves(env, c, event, now, draws);
    case ClientDatagram(d) => LocalEvolves(env, c, d, now, DrawAt(draws.convs), draws, event);
    case TimeAdvanced(at) => TickEvolves(env, c, at, draws, event);
    case Reconnect => ReconnectEvolves(env, c, now, draws, event);
    case _ =>
  }
}
