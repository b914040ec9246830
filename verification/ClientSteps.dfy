/** Every event keeps the client's invariants, and what it may do to sessions,
    conversations and tickets on the way. */
module ClientSteps {
  import opened Base
  import opened Config
  import opened Messages
  import opened Sessions
  import opened ClientSpec
  import opened ClientInvariants
  import opened ClientSending

  /** The platform's promises for one event: unused identifiers, and a real
      iteration order. */
  ghost predicate ValidDraws(c: Client, draws: ClientDraws) {
    FreshDraws(draws.convs, c.byId.Keys) && Enumerates(draws.order, c.byPeer.Keys)
  }

  ghost predicate ClientLimits(env: ClientEnv) {
    ValidConfig(env.cfg) && env.cfg.maxConversations < U32_MAX
  }

  // ------------------------------------------------------ what an event may do

  /** The session stays, extends, ends, or starts empty from the pending hello. */
  ghost predicate SessionEvolves(c0: Client, c1: Client) {
    c1.session.Some? ==>
      var s1 := c1.session.value;
      || (&& c0.session.Some?
          && s1.sealer == c0.session.value.sealer.(next := s1.sealer.next)
          && c0.session.value.sealer.next <= s1.sealer.next
          && TableStep(c0.session.value.handles, s1.handles))
      || (&& c0.session.None? && c0.handshake.Some?
          && KeyOf(s1).hello == c0.handshake.value.hello
          && s1.sealer.next == 0 && s1.handles == NewTable())
  }

  /** A handshake keeps its nonce or starts with a new one. */
  ghost predicate NonceEvolves(c0: Client, c1: Client, draws: ClientDraws) {
    c1.handshake.Some? ==>
      var nonce := c1.handshake.value.hello.clientNonce;
      || (c0.handshake.Some? && nonce == c0.handshake.value.hello.clientNonce
          && (c1.handshake.value.phase.AwaitingServerHello? ==> c0.handshake.value.phase.AwaitingServerHello?))
      || (draws.hello.Some? && nonce == draws.hello.value.clientNonce)
  }

  ghost predicate PeersKept(c0: Client, c1: Client) {
    forall id :: id in c0.byId && id in c1.byId ==> c1.byId[id] == c0.byId[id]
  }

  /** Every record sent belongs to the session and is labelled. */
  ghost predicate RecordsSound(c0: Client, c1: Client, frames: seq<Frame>, fates: seq<Fate>) {
    && Ascending(frames)
    && (frames != [] ==> c0.session.Some? && c1.session.Some?)
    && (forall f :: f in frames ==>
          Labelled(c1, c0.session.value.sealer.next, c1.session.value.sealer.next, f, fates))
    && (forall i :: 0 <= i < |fates| ==> FateSound(c1, fates[i], frames))
  }

  ghost predicate Evolves(c0: Client, c1: Client, draws: ClientDraws, frames: seq<Frame>, fates: seq<Fate>) {
    && OnlyDrawn(c0, c1, draws.convs)
    && PeersKept(c0, c1)
    && SessionEvolves(c0, c1)
    && NonceEvolves(c0, c1, draws)
    && RecordsSound(c0, c1, frames, fates)
  }

  /** Handshake frames sent are those of the pending handshake. */
  ghost predicate HandshakeFramesSound(c1: Client, actions: seq<Action>) {
    forall a :: a in actions && a.SendFrame? && !a.frame.RecordMsg? ==>
      c1.handshake.Some? && a.frame == HandshakeFrame(c1.handshake.value)
  }

  /** Tickets are kept, or come from an authentic record for the conversation
      that the session's table names. */
  ghost predicate TicketHeld(c: Client, id: ConvId, t: Ticket) {
    id in c.byId && c.byId[id] in c.byPeer && c.byPeer[c.byId[id]].ticket == Some(t)
  }

  ghost predicate TicketReceived(c: Client, event: ClientEvent, id: ConvId, t: Ticket) {
    && event.TunnelFrame? && event.frame.RecordMsg? && c.session.Some?
    && Authentic(c.session.value.opener, event.frame)
    && event.frame.header.ftype.ResumptionCredential?
    && event.frame.header.handle.Some?
    && event.frame.header.handle.value in c.session.value.handles.byHandle
    && c.session.value.handles.byHandle[event.frame.header.handle.value] == id
    && event.frame.body.plain == CredentialBytes(t.credential)
  }

  ghost predicate TicketsEvolve(c0: Client, c1: Client, event: ClientEvent) {
    forall p :: p in c1.byPeer && c1.byPeer[p].ticket.Some? ==>
      || TicketHeld(c0, c1.byPeer[p].id, c1.byPeer[p].ticket.value)
      || TicketReceived(c0, event, c1.byPeer[p].id, c1.byPeer[p].ticket.value)
  }

  /** A reply delivered to a local peer is the payload of an authentic record
      whose handle the session's table maps to that peer's conversation. */
  ghost predicate Delivers(c: Client, event: ClientEvent, peer: LocalPeer, payload: seq<byte>) {
    && event.TunnelFrame? && event.frame.RecordMsg? && c.session.Some?
    && Authentic(c.session.value.opener, event.frame)
    && event.frame.header.ftype.Data?
    && event.frame.header.handle.Some?
    && event.frame.header.handle.value in c.session.value.handles.byHandle
    && var conv := c.session.value.handles.byHandle[event.frame.header.handle.value];
       conv in c.byId && c.byId[conv] == peer && payload == PayloadOf(event.frame.body.plain)
  }

  ghost predicate DeliveriesSound(c0: Client, event: ClientEvent, actions: seq<Action>) {
    forall a :: a in actions && a.DeliverToClient? ==> Delivers(c0, event, a.localPeer, a.payload)
  }

  /** The client becomes ready on an authentic acknowledgement only. */
  ghost predicate BecomesReady(c0: Client, c1: Client, event: ClientEvent) {
    c1.mode.Ready? && !c0.mode.Ready? ==>
      && event.TunnelFrame? && event.frame.RecordMsg? && c0.session.Some? && c1.session.Some?
      && Authentic(c0.session.value.opener, event.frame)
      && event.frame.header.ftype.HandshakeAck?
      && KeyOf(c1.session.value) == KeyOf(c0.session.value)
  }

  /** A session is reported established only then, with what it agreed on. */
  ghost predicate EstablishedSound(env: ClientEnv, c0: Client, event: ClientEvent, actions: seq<Action>) {
    forall a :: a in actions && a.SessionEstablished? ==>
      && event.TunnelFrame? && event.frame.RecordMsg? && c0.session.Some?
      && Authentic(c0.session.value.opener, event.frame)
      && event.frame.header.ftype.HandshakeAck?
      && a == SessionEstablished(env.serverPeer, c0.session.value.id, env.cfg.suite, c0.session.value.resumed)
  }

  /** All of it together, for one event. */
  ghost predicate StepSound(env: ClientEnv, c0: Client, o: ClientOutcome, event: ClientEvent, draws: ClientDraws) {
    && Evolves(c0, o.client, draws, SentRecords(o.reply), o.fates)
    && TicketsEvolve(c0, o.client, event)
    && BecomesReady(c0, o.client, event)
    && (o.reply.Ok? ==>
          && HandshakeFramesSound(o.client, o.reply.actions)
          && DeliveriesSound(c0, event, o.reply.actions)
          && EstablishedSound(env, c0, event, o.reply.actions))
  }

  /** Neither a delivery nor the report of a session. */
  predicate Plainly(a: Action) {
    !a.DeliverToClient? && !a.SessionEstablished?
  }

  /** An event that leaves the session and the conversations alone. */
  lemma QuietStep(env: ClientEnv, c0: Client, o: ClientOutcome, event: ClientEvent, draws: ClientDraws)
    requires ClientInv(env, c0)
    requires o.client.byPeer == c0.byPeer && o.client.byId == c0.byId
    requires o.client.session.None? || o.client.session == c0.session
    requires NonceEvolves(c0, o.client, draws) && (o.client.mode.Ready? ==> c0.mode.Ready?)
    requires SentRecords(o.reply) == [] && forall i :: 0 <= i < |o.fates| ==> o.fates[i].Lost?
    requires o.reply.Ok? ==> HandshakeFramesSound(o.client, o.reply.actions)
                             && forall a :: a in o.reply.actions ==> Plainly(a)
    ensures StepSound(env, c0, o, event, draws)
  {
  }

  // ---------------------------------------------------------------- handshake

  lemma BeginHandshakeKeeps(env: ClientEnv, c: Client, now: Time, mode: SessionState, draws: ClientDraws)
    requires ClientInv(env, c) && c.session.None? && (mode.Handshaking? || mode.Reconnecting?)
    requires c.queue == []
    ensures var b := BeginHandshake(env, c, now, mode, draws);
            b.BegunOk? ==>
              && ClientInv(env, b.client) && IsHandshaking(b.client)
              && b.client.byPeer == c.byPeer && b.client.byId == c.byId && b.client.session.None? && b.client.queue == []
              && NonceEvolves(c, b.client, draws)
              && Records(b.actions) == []
              && HandshakeFramesSound(b.client, b.actions)
              && (forall a :: a in b.actions ==> Plainly(a))
  {
    var b := BeginHandshake(env, c, now, mode, draws);
    if b.BegunOk? {
      NoRecords(b.actions);
    }
  }

  lemma BeginReconnectKeeps(env: ClientEnv, c: Client, now: Time, draws: ClientDraws)
    requires ClientInv(env, c) && c.mode.Ready?
    ensures var p := BeginReconnect(env, c, now, draws);
            && ClientInv(env, p.client) && !p.client.mode.Ready?
            && p.client.byPeer == c.byPeer && p.client.byId == c.byId && p.client.session.None? && p.client.queue == []
            && NonceEvolves(c, p.client, draws)
            && Records(p.actions) == [] && p.fates == []
            && HandshakeFramesSound(p.client, p.actions)
            && (forall a :: a in p.actions ==> Plainly(a))
  {
    var closed := [SessionClosed(env.serverPeer, c.session.value.id)];
    var c1 := c.(session := None, handshake := None);
    var c2 := c1.(mode := Closed);
    BeginHandshakeKeeps(env, c2, now, Reconnecting, draws);
    var b := BeginHandshake(env, c1, now, Reconnecting, draws);
    assert b == BeginHandshake(env, c2, now, Reconnecting, draws);
    if b.BegunOk? {
      RecordsConcat(closed, b.actions);
    }
  }

  lemma StartKeeps(env: ClientEnv, c: Client, now: Time, draws: ClientDraws)
    requires ClientInv(env, c) && ClientLimits(env)
    ensures var o := ClientStep(env, c, Start, now, draws);
            ClientInv(env, o.client) && StepSound(env, c, o, Start, draws)
  {
    var o := ClientStep(env, c, Start, now, draws);
    if c.mode.Idle? {
      BeginHandshakeKeeps(env, c, now, Handshaking, draws);
    }
    QuietStep(env, c, o, Start, draws);
  }

  lemma ReconnectKeeps(env: ClientEnv, c: Client, now: Time, draws: ClientDraws)
    requires ClientInv(env, c) && ClientLimits(env)
    ensures var o := ClientStep(env, c, Reconnect, now, draws);
            ClientInv(env, o.client) && StepSound(env, c, o, Reconnect, draws)
  {
    var o := ClientStep(env, c, Reconnect, now, draws);
    if c.mode.Ready? {
      BeginReconnectKeeps(env, c, now, draws);
    }
    QuietStep(env, c, o, Reconnect, draws);
  }

  lemma HandleRetryKeeps(env: ClientEnv, c: Client, retry: HelloRetry, now: Time, event: ClientEvent, draws: ClientDraws)
    requires ClientInv(env, c) && ClientLimits(env)
    ensures var o := HandleRetry(env, c, retry, now);
            ClientInv(env, o.client) && StepSound(env, c, o, event, draws)
  {
    var o := HandleRetry(env, c, retry, now);
    if o.reply.Ok? {
      NoRecords(o.reply.actions);
    }
    QuietStep(env, c, o, event, draws);
  }

  lemma HandleServerHelloKeeps(env: ClientEnv, c: Client, sid: SessionId, sh: ServerHello, now: Time,
                               event: ClientEvent, draws: ClientDraws)
    requires ClientInv(env, c) && ClientLimits(env)
    ensures var o := HandleServerHello(env, c, sid, sh, now, draws);
            ClientInv(env, o.client) && StepSound(env, c, o, event, draws)
  {
    hide StepSound, SessionSound, Tables;
    var o := HandleServerHello(env, c, sid, sh, now, draws);
    if o.reply.Ok? {
      NoRecords(o.reply.actions);
      if c.handshake.value.phase.AwaitingServerHello? {
        NewSessionKeeps(env, c, sid, sh, now, draws);
        NewSessionStep(env, c, o, event, draws);
      } else {
        QuietStep(env, c, o, event, draws);
      }
    } else {
      QuietStep(env, c, o, event, draws);
    }
  }

  lemma NewSessionStep(env: ClientEnv, c0: Client, o: ClientOutcome, event: ClientEvent, draws: ClientDraws)
    requires Tables(c0.byPeer, c0.byId)
    requires o.client.byPeer == c0.byPeer && o.client.byId == c0.byId
    requires SessionEvolves(c0, o.client) && NonceEvolves(c0, o.client, draws) && !o.client.mode.Ready?
    requires o.reply.Ok? && Records(o.reply.actions) == [] && o.fates == []
    requires HandshakeFramesSound(o.client, o.reply.actions) && forall a :: a in o.reply.actions ==> Plainly(a)
    ensures StepSound(env, c0, o, event, draws)
  {
  }

  lemma NewSessionKeeps(env: ClientEnv, c: Client, sid: SessionId, sh: ServerHello, now: Time, draws: ClientDraws)
    requires ClientInv(env, c) && ClientLimits(env)
    requires HandleServerHello(env, c, sid, sh, now, draws).reply.Ok? && c.handshake.value.phase.AwaitingServerHello?
    ensures var o := HandleServerHello(env, c, sid, sh, now, draws);
            ClientInv(env, o.client) && SessionEvolves(c, o.client) && NonceEvolves(c, o.client, draws)
  {
  }

  // ---------------------------------------------------------------- datagrams

  lemma EnqueueKeeps(env: ClientEnv, c: Client, d: Datagram, now: Time)
    requires ClientInv(env, c) && IsHandshaking(c) && |d.payload| <= env.cfg.maxFramePayload
    ensures var p := Enqueue(env, c, d, now);
            && ClientInv(env, p.client)
            && p.client == c.(queue := p.client.queue)
            && Records(p.actions) == [] && (forall a :: a in p.actions ==> !a.SendFrame? && Plainly(a))
            && (forall i :: 0 <= i < |p.fates| ==> p.fates[i].Lost?)
  {
    NoRecords(Enqueue(env, c, d, now).actions);
  }

  lemma HandleLocalKeeps(env: ClientEnv, c: Client, d: Datagram, now: Time, draws: ClientDraws)
    requires ClientInv(env, c) && ClientLimits(env) && ValidDraws(c, draws)
    ensures var o := ClientStep(env, c, ClientDatagram(d), now, draws);
            ClientInv(env, o.client) && StepSound(env, c, o, ClientDatagram(d), draws)
  {
    var o := ClientStep(env, c, ClientDatagram(d), now, draws);
    var event := ClientDatagram(d);
    if |d.payload| > env.cfg.maxFramePayload {
      QuietStep(env, c, o, event, draws);
    } else if c.mode.Ready? && Stale(env, c, now) {
      StaleKeeps(env, c, d, now, draws);
    } else if !c.mode.Ready? {
      if IsHandshaking(c) {
        EnqueueKeeps(env, c, d, now);
      }
      QuietStep(env, c, o, event, draws);
    } else {
      SendKeeps(env, c, d, now, draws);
    }
  }

  lemma StaleKeeps(env: ClientEnv, c: Client, d: Datagram, now: Time, draws: ClientDraws)
    requires ClientInv(env, c) && ClientLimits(env)
    requires |d.payload| <= env.cfg.maxFramePayload && c.mode.Ready? && Stale(env, c, now)
    ensures var o := ClientStep(env, c, ClientDatagram(d), now, draws);
            ClientInv(env, o.client) && StepSound(env, c, o, ClientDatagram(d), draws)
  {
    hide StepSound, BeginReconnect, ClientInv;
    var o := ClientStep(env, c, ClientDatagram(d), now, draws);
    BeginReconnectKeeps(env, c, now, draws);
    var p := BeginReconnect(env, c, now, draws);
    if IsHandshaking(p.client) {
      EnqueueKeeps(env, p.client, d, now);
      RecordsConcat(p.actions, Enqueue(env, p.client, d, now).actions);
    } else {
      RecordsConcat(p.actions, [DatagramDropped(d.localPeer, ConnectionClosed)]);
    }
    QuietStep(env, c, o, ClientDatagram(d), draws);
  }

  lemma SendKeeps(env: ClientEnv, c: Client, d: Datagram, now: Time, draws: ClientDraws)
    requires ClientInv(env, c) && ClientLimits(env) && ValidDraws(c, draws)
    requires c.mode.Ready?
    ensures var o := SendData(env, c, d, now, DrawAt(draws.convs));
            ClientInv(env, o.client) && StepSound(env, c, o, ClientDatagram(d), draws)
  {
    var o := SendData(env, c, d, now, DrawAt(draws.convs));
    SendDataGrows(env, c, d, now, DrawAt(draws.convs));
    GrowsEvolves(env, c, o, ClientDatagram(d), draws);
    SendActions(env, c, d, now, DrawAt(draws.convs));
  }

  lemma SendActions(env: ClientEnv, c: Client, d: Datagram, now: Time, draw: Option<ConvId>)
    ensures var o := SendData(env, c, d, now, draw);
            o.reply.Ok? ==> OnlyRecords(o.reply.actions)
  {
  }

  /** No handshake frame and no delivery. */
  ghost predicate OnlyRecords(actions: seq<Action>) {
    forall a :: a in actions ==> Plainly(a) && (a.SendFrame? ==> a.frame.RecordMsg?)
  }

  /** An event that only extends the session. */
  lemma GrowsEvolves(env: ClientEnv, c: Client, o: ClientOutcome, event: ClientEvent, draws: ClientDraws)
    requires ClientInv(env, c) && Sound(env, o.client)
    requires c.mode.Ready? && o.client.queue == []
    requires Grows(c, o.client, SentRecords(o.reply), o.fates) && OnlyDrawn(c, o.client, draws.convs + [None])
    ensures ClientInv(env, o.client)
    ensures Evolves(c, o.client, draws, SentRecords(o.reply), o.fates)
    ensures TicketsEvolve(c, o.client, event) && BecomesReady(c, o.client, event)
  {
  }
}
