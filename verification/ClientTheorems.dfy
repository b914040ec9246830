/** The client engine as a whole: every event keeps the invariants. */
module ClientTheorems {
  import opened Base
  import opened Messages
  import opened Sessions
  import opened ClientSpec
  import opened ClientInvariants
  import opened ClientSending
  import opened ClientSteps
  import opened ClientAck

  // ---------------------------------------------------------------- records

  /** The session after a record: only the window and the clock have moved. */
  ghost predicate Reopened(s0: ClientSession, s1: ClientSession) {
    s1 == s0.(opener := s0.opener.(window := s1.opener.window), lastReceivedAt := s1.lastReceivedAt)
  }

  lemma ReopenedInv(env: ClientEnv, c: Client, s1: ClientSession)
    requires ClientInv(env, c) && c.session.Some? && Reopened(c.session.value, s1)
    ensures ClientInv(env, c.(session := Some(s1)))
  {
  }

  /** A record that touches no conversation table. */
  lemma ReopenedQuiet(env: ClientEnv, c: Client, s1: ClientSession, reply: Reply, event: ClientEvent, draws: ClientDraws)
    requires ClientInv(env, c) && c.session.Some? && Reopened(c.session.value, s1)
    requires reply.Ok? ==> reply.actions == []
    ensures StepSound(env, c, ClientOutcome(c.(session := Some(s1)), reply, []), event, draws)
  {
  }

  /** A record for a known conversation changes that conversation's entry only. */
  lemma TouchedSound(env: ClientEnv, c: Client, s1: ClientSession, peer: LocalPeer, conv: Conversation)
    requires ClientInv(env, c) && c.mode.Ready? && c.session.Some? && Reopened(c.session.value, s1)
    requires peer in c.byPeer && conv.id == c.byPeer[peer].id
    ensures ClientInv(env, c.(session := Some(s1), byPeer := c.byPeer[peer := conv]))
  {
    TablesTouched(c.byPeer, c.byId, peer, conv);
  }

  lemma StoreTicketKeeps(env: ClientEnv, c: Client, s1: ClientSession, frame: Frame, from: PeerId, now: Time, draws: ClientDraws)
    requires ClientInv(env, c) && c.mode.Ready? && c.session.Some? && Reopened(c.session.value, s1)
    requires Authentic(c.session.value.opener, frame) && frame.header.ftype.ResumptionCredential?
    ensures var o := StoreTicket(c.(session := Some(s1)), s1, frame, frame.body.plain, now);
            ClientInv(env, o.client) && StepSound(env, c, o, TunnelFrame(from, frame), draws)
  {
    var c2 := c.(session := Some(s1));
    var o := StoreTicket(c2, s1, frame, frame.body.plain, now);
    ReopenedInv(env, c, s1);
    if o.reply.Err? {
      ReopenedQuiet(env, c, s1, o.reply, TunnelFrame(from, frame), draws);
    } else {
      var id := s1.handles.byHandle[frame.header.handle.value];
      var peer := c.byId[id];
      var conv := c.byPeer[peer].(ticket := Some(Ticket(s1.id, frame.body.plain.credential)), lastActivity := now);
      TouchedSound(env, c, s1, peer, conv);
      assert o == ClientOutcome(c2.(byPeer := c.byPeer[peer := conv]), Ok([]), []);
      assert TicketReceived(c, TunnelFrame(from, frame), conv.id, conv.ticket.value);
      assert TicketsEvolve(c, o.client, TunnelFrame(from, frame));
    }
  }

  lemma DeliverReplyKeeps(env: ClientEnv, c: Client, s1: ClientSession, frame: Frame, from: PeerId, now: Time, draws: ClientDraws)
    requires ClientInv(env, c) && c.mode.Ready? && c.session.Some? && Reopened(c.session.value, s1)
    requires Authentic(c.session.value.opener, frame) && frame.header.ftype.Data?
    ensures var o := DeliverReply(c.(session := Some(s1)), s1, frame, frame.body.plain, now);
            ClientInv(env, o.client) && StepSound(env, c, o, TunnelFrame(from, frame), draws)
  {
    var c2 := c.(session := Some(s1));
    var o := DeliverReply(c2, s1, frame, frame.body.plain, now);
    ReopenedInv(env, c, s1);
    if o.reply.Err? {
      ReopenedQuiet(env, c, s1, o.reply, TunnelFrame(from, frame), draws);
    } else {
      var id := s1.handles.byHandle[frame.header.handle.value];
      var peer := c.byId[id];
      var conv := c.byPeer[peer].(lastActivity := now);
      TouchedSound(env, c, s1, peer, conv);
      assert o == ClientOutcome(c2.(byPeer := c.byPeer[peer := conv]),
                                Ok([DeliverToClient(peer, PayloadOf(frame.body.plain))]), []);
      NoRecords(o.reply.actions);
      assert Delivers(c, TunnelFrame(from, frame), peer, PayloadOf(frame.body.plain));
      assert TicketsEvolve(c, o.client, TunnelFrame(from, frame));
    }
  }

  lemma AckKeeps(env: ClientEnv, c: Client, s1: ClientSession, frame: Frame, from: PeerId, now: Time, draws: ClientDraws)
    requires ClientInv(env, c) && ClientLimits(env) && ValidDraws(c, draws)
    requires IsHandshaking(c) && c.session.Some? && Reopened(c.session.value, s1)
    requires Authentic(c.session.value.opener, frame) && frame.header.ftype.HandshakeAck?
    ensures var o := AcceptAck(env, c.(session := Some(s1)), s1, now, draws);
            ClientInv(env, o.client) && StepSound(env, c, o, TunnelFrame(from, frame), draws)
  {
    var c1 := c.(session := Some(s1));
    ReopenedInv(env, c, s1);
    AcceptAckKeeps(env, c1, s1, now, draws);
    var o := AcceptAck(env, c1, s1, now, draws);
    EvolvesFromReopened(c, s1, o.client, draws, SentRecords(o.reply), o.fates);
    TicketsFromReopened(c, s1, o.client, TunnelFrame(from, frame));
  }

  lemma EvolvesFromReopened(c: Client, s1: ClientSession, c2: Client, draws: ClientDraws, frames: seq<Frame>, fates: seq<Fate>)
    requires c.session.Some? && Reopened(c.session.value, s1)
    requires Evolves(c.(session := Some(s1)), c2, draws, frames, fates)
    ensures Evolves(c, c2, draws, frames, fates)
  {
  }

  lemma TicketsFromReopened(c: Client, s1: ClientSession, c2: Client, event: ClientEvent)
    requires c.session.Some? && Reopened(c.session.value, s1)
    requires forall e :: TicketsEvolve(c.(session := Some(s1)), c2, e)
    ensures TicketsEvolve(c, c2, event)
  {
    var c1 := c.(session := Some(s1));
    assert TicketsEvolve(c1, c2, Start);
    forall p | p in c2.byPeer && c2.byPeer[p].ticket.Some?
      ensures TicketHeld(c, c2.byPeer[p].id, c2.byPeer[p].ticket.value)
    {
      assert TicketHeld(c1, c2.byPeer[p].id, c2.byPeer[p].ticket.value);
    }
  }

  lemma HandleRecordKeeps(env: ClientEnv, c: Client, frame: Frame, from: PeerId, now: Time, draws: ClientDraws)
    requires ClientInv(env, c) && ClientLimits(env) && ValidDraws(c, draws)
    ensures var o := HandleRecord(env, c, frame, now, draws);
            ClientInv(env, o.client) && StepSound(env, c, o, TunnelFrame(from, frame), draws)
  {
    var o := HandleRecord(env, c, frame, now, draws);
    var event := TunnelFrame(from, frame);
    if c.session.None? || Open(c.session.value.opener, frame).OpenErr? {
      QuietStep(env, c, o, event, draws);
    } else {
      OpenedKeeps(env, c, frame, from, now, draws);
    }
  }

  lemma OpenedKeeps(env: ClientEnv, c: Client, frame: Frame, from: PeerId, now: Time, draws: ClientDraws)
    requires ClientInv(env, c) && ClientLimits(env) && ValidDraws(c, draws)
    requires c.session.Some? && Open(c.session.value.opener, frame).OpenOk?
    ensures var o := HandleRecord(env, c, frame, now, draws);
            ClientInv(env, o.client) && StepSound(env, c, o, TunnelFrame(from, frame), draws)
  {
    var o := HandleRecord(env, c, frame, now, draws);
    var event := TunnelFrame(from, frame);
    var s1 := c.session.value.(opener := Open(c.session.value.opener, frame).opener);
    var s2 := s1.(lastReceivedAt := now);
    if frame.header.ftype.HandshakeAck? {
      if IsHandshaking(c) {
        AckKeeps(env, c, s1, frame, from, now, draws);
      } else {
        ReopenedInv(env, c, s1);
        ReopenedQuiet(env, c, s1, o.reply, event, draws);
      }
    } else if !c.mode.Ready? {
      ReopenedInv(env, c, s1);
      ReopenedQuiet(env, c, s1, o.reply, event, draws);
    } else if frame.header.ftype.ResumptionCredential? {
      StoreTicketKeeps(env, c, s2, frame, from, now, draws);
    } else if frame.header.ftype.Data? {
      DeliverReplyKeeps(env, c, s2, frame, from, now, draws);
    } else {
      ReopenedInv(env, c, s2);
      ReopenedQuiet(env, c, s2, o.reply, event, draws);
    }
  }

  lemma HandleTunnelKeeps(env: ClientEnv, c: Client, from: PeerId, frame: Frame, now: Time, draws: ClientDraws)
    requires ClientInv(env, c) && ClientLimits(env) && ValidDraws(c, draws)
    ensures var o := ClientStep(env, c, TunnelFrame(from, frame), now, draws);
            ClientInv(env, o.client) && StepSound(env, c, o, TunnelFrame(from, frame), draws)
  {
    var o := ClientStep(env, c, TunnelFrame(from, frame), now, draws);
    if from != env.serverPeer || frame.Undecodable? {
      QuietStep(env, c, o, TunnelFrame(from, frame), draws);
    } else if frame.RetryMsg? {
      HandleRetryKeeps(env, c, frame.retry, now, TunnelFrame(from, frame), draws);
    } else if frame.ServerHelloMsg? {
      HandleServerHelloKeeps(env, c, frame.sid, frame.serverHello, now, TunnelFrame(from, frame), draws);
    } else {
      HandleRecordKeeps(env, c, frame, from, now, draws);
    }
  }

  // ---------------------------------------------------------------- timers

  lemma {:induction false} LostAllLost(queue: seq<Queued>, reason: DropReason)
    ensures forall i :: 0 <= i < |LostAll(queue, reason)| ==> LostAll(queue, reason)[i].Lost?
  {
    if queue != [] {
      LostAllLost(queue[1..], reason);
    }
  }

  lemma {:induction false} DropAllQuiet(queue: seq<Queued>, reason: DropReason)
    ensures forall a :: a in DropAll(queue, reason) ==> a.DatagramDropped?
  {
    if queue != [] {
      DropAllQuiet(queue[1..], reason);
    }
  }

  ghost predicate Silent(actions: seq<Action>) {
    forall a :: a in actions ==> !a.SendFrame? && Plainly(a)
  }

  /** What a timer may do to a handshake. */
  ghost predicate HandshakeTicks(env: ClientEnv, c: Client, p: Progress) {
    && ClientInv(env, p.client)
    && p.client.byPeer == c.byPeer && p.client.byId == c.byId
    && (p.client.session.None? || p.client.session == c.session)
    && (p.client.mode.Ready? ==> c.mode.Ready?)
    && (p.client.handshake.Some? ==>
          && c.handshake.Some?
          && p.client.handshake.value.hello == c.handshake.value.hello
          && p.client.handshake.value.phase == c.handshake.value.phase)
    && (forall i :: 0 <= i < |p.fates| ==> p.fates[i].Lost?)
    && (forall a :: a in p.actions ==> Plainly(a))
    && HandshakeFramesSound(p.client, p.actions)
    && (forall a :: a in p.actions && a.SendFrame? ==> !a.frame.RecordMsg?)
  }

  lemma HandshakeEnds(env: ClientEnv, c: Client, now: Time)
    requires ClientInv(env, c) && IsHandshaking(c) && HandshakeOver(env, c.handshake.value, now)
    ensures HandshakeTicks(env, c, ExpireHandshake(env, c, now))
  {
    LostAllLost(c.queue, ConnectionClosed);
    DropAllQuiet(c.queue, ConnectionClosed);
  }

  lemma ExpireHandshakeKeeps(env: ClientEnv, c: Client, now: Time)
    requires ClientInv(env, c)
    ensures HandshakeTicks(env, c, ExpireHandshake(env, c, now))
  {
    if IsHandshaking(c) && HandshakeOver(env, c.handshake.value, now) {
      HandshakeEnds(env, c, now);
    }
  }

  lemma ExpireQueueKeeps(env: ClientEnv, c: Client, now: Time)
    requires ClientInv(env, c)
    ensures var p := ExpireQueue(env, c, now);
            && ClientInv(env, p.client) && p.client == c.(queue := p.client.queue)
            && Silent(p.actions) && (forall i :: 0 <= i < |p.fates| ==> p.fates[i].Lost?)
  {
    var n := ExpiredPrefix(env, c.queue, now);
    LostAllLost(c.queue[..n], ReconnectQueueExpired);
    DropAllQuiet(c.queue[..n], ReconnectQueueExpired);
  }

  /** Conversations only leave, and take their handles with them. */
  ghost predicate Shrinks(c0: Client, c1: Client) {
    && c1 == c0.(byPeer := c1.byPeer, byId := c1.byId, session := c1.session)
    && (forall p :: p in c1.byPeer ==> p in c0.byPeer && c1.byPeer[p] == c0.byPeer[p])
    && (forall id :: id in c1.byId ==> id in c0.byId && c1.byId[id] == c0.byId[id])
    && (c1.session.Some? <==> c0.session.Some?)
    && (c0.session.Some? ==>
          && c1.session.value == c0.session.value.(handles := c1.session.value.handles)
          && c1.session.value.handles.next == c0.session.value.handles.next
          && (forall h :: h in c1.session.value.handles.byHandle ==>
                h in c0.session.value.handles.byHandle
                && c1.session.value.handles.byHandle[h] == c0.session.value.handles.byHandle[h]))
  }

  lemma ForgetKeeps(env: ClientEnv, c: Client, peer: LocalPeer)
    requires ClientInv(env, c) && peer in c.byPeer
    ensures ClientInv(env, Forget(c, peer, c.byPeer[peer].id)) && Shrinks(c, Forget(c, peer, c.byPeer[peer].id))
  {
    TablesForgotten(c.byPeer, c.byId, peer);
    if c.session.Some? && IsHandshaking(c) {
      assert Remove(NewTable(), c.byPeer[peer].id) == NewTable();
    }
  }

  lemma {:induction false} ExpireConversationsKeeps(env: ClientEnv, c: Client, now: Time, order: seq<LocalPeer>)
    requires ClientInv(env, c)
    ensures var p := ExpireConversations(env, c, now, order);
            ClientInv(env, p.client) && Shrinks(c, p.client) && Silent(p.actions) && p.fates == []
    decreases |order|
  {
    if order != [] {
      if order[0] in c.byPeer && IdleConversation(env, c.byPeer[order[0]], now) {
        ForgetKeeps(env, c, order[0]);
        ExpireConversationsKeeps(env, Forget(c, order[0], c.byPeer[order[0]].id), now, order[1..]);
      } else {
        ExpireConversationsKeeps(env, c, now, order[1..]);
      }
    }
  }

  /** An event in which conversations only leave. */
  lemma ShrinkingStep(env: ClientEnv, c0: Client, c1: Client, o: ClientOutcome, event: ClientEvent, draws: ClientDraws)
    requires ClientInv(env, c0) && ClientInv(env, c1)
    requires c1.byPeer == c0.byPeer && c1.byId == c0.byId
    requires c1.session.None? || c1.session == c0.session
    requires NonceEvolves(c0, c1, draws) && (c1.mode.Ready? ==> c0.mode.Ready?)
    requires Shrinks(c1, o.client)
    requires SentRecords(o.reply) == [] && forall i :: 0 <= i < |o.fates| ==> o.fates[i].Lost?
    requires o.reply.Ok? && HandshakeFramesSound(c1, o.reply.actions)
    requires forall a :: a in o.reply.actions ==> Plainly(a)
    ensures StepSound(env, c0, o, event, draws)
  {
  }

  lemma ExpireKeeps(env: ClientEnv, c: Client, at: Time, now: Time, draws: ClientDraws)
    requires ClientInv(env, c) && ClientLimits(env)
    ensures var o := ClientStep(env, c, TimeAdvanced(at), now, draws);
            ClientInv(env, o.client) && StepSound(env, c, o, TimeAdvanced(at), draws)
  {
    var o := ClientStep(env, c, TimeAdvanced(at), now, draws);
    var p := ExpireHandshake(env, c, at);
    ExpireHandshakeKeeps(env, c, at);
    var q := ExpireQueue(env, p.client, at);
    ExpireQueueKeeps(env, p.client, at);
    ExpireConversationsKeeps(env, q.client, at, draws.order);
    NoRecords(o.reply.actions);
    ShrinkingStep(env, c, q.client, o, TimeAdvanced(at), draws);
  }

  lemma CloseKeeps(env: ClientEnv, c: Client, session: Option<SessionId>, conv: ConvId, now: Time, draws: ClientDraws)
    requires ClientInv(env, c) && ClientLimits(env)
    ensures var o := ClientStep(env, c, CloseConversation(session, conv), now, draws);
            ClientInv(env, o.client) && StepSound(env, c, o, CloseConversation(session, conv), draws)
  {
    hide SessionSound, StepSound;
    var o := ClientStep(env, c, CloseConversation(session, conv), now, draws);
    if o.reply.Ok? && conv in c.byId {
      ForgetKeeps(env, c, c.byId[conv]);
      NoRecords(o.reply.actions);
      ShrinkingStep(env, c, c, o, CloseConversation(session, conv), draws);
    } else {
      QuietStep(env, c, o, CloseConversation(session, conv), draws);
    }
  }

  // ---------------------------------------------------------------- all events

  lemma NewClientInv(env: ClientEnv)
    requires ClientLimits(env)
    ensures ClientInv(env, NewClient())
  {
  }

  /** Every event, whether it succeeds or fails, keeps the client's state
      machine, its tables and its session sound. */
  lemma ClientStepKeeps(env: ClientEnv, c: Client, event: ClientEvent, now: Time, draws: ClientDraws)
    requires ClientInv(env, c) && ClientLimits(env) && ValidDraws(c, draws)
    ensures var o := ClientStep(env, c, event, now, draws);
            ClientInv(env, o.client) && StepSound(env, c, o, event, draws)
  {
    match event
    case Start => StartKeeps(env, c, now, draws);
    case Reconnect => ReconnectKeeps(env, c, now, draws);
    case ClientDatagram(d) => HandleLocalKeeps(env, c, d, now, draws);
    case TunnelFrame(from, frame) => HandleTunnelKeeps(env, c, from, frame, now, draws);
    case TimeAdvanced(at) => ExpireKeeps(env, c, at, now, draws);
    case CloseConversation(session, conv) => CloseKeeps(env, c, session, conv, now, draws);
    case ServerDatagram => QuietStep(env, c, ClientStep(env, c, event, now, draws), event, draws);
  }
}
