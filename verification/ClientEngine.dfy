/** The client engine as the program keeps it: fields changed event by event, with
    loops over the queue and over the conversations. */
module ClientEngine {
  import opened Base
  import opened Protocol
  import opened Messages
  import opened ReplaySpec
  import opened Sessions
  import opened ClientSpec

  // ---------------------------------------------------------------- loops and recursions

  lemma {:induction false} DropAllLast(queue: seq<Queued>, q: Queued, reason: DropReason)
    ensures DropAll(queue + [q], reason) == DropAll(queue, reason) + [DatagramDropped(q.datagram.localPeer, reason)]
    ensures LostAll(queue + [q], reason) == LostAll(queue, reason) + [Lost(q.datagram, reason)]
  {
    if queue == [] {
      assert queue + [q] == [q];
    } else {
      assert (queue + [q])[1..] == queue[1..] + [q];
      DropAllLast(queue[1..], q, reason);
    }
  }

  lemma {:induction false} ExpiredPrefixIs(env: ClientEnv, queue: seq<Queued>, now: Time, n: nat)
    requires n <= |queue| && (forall i :: 0 <= i < n ==> Elapsed(now, queue[i].queuedAt) >= env.cfg.reconnectQueueTimeout)
    requires n < |queue| ==> Elapsed(now, queue[n].queuedAt) < env.cfg.reconnectQueueTimeout
    ensures ExpiredPrefix(env, queue, now) == n
  {
    if n > 0 {
      ExpiredPrefixIs(env, queue[1..], now, n - 1);
    }
  }

  lemma ClosedAllNext(byPeer: map<LocalPeer, Conversation>, order: seq<LocalPeer>, i: nat)
    requires i < |order|
    ensures ClosedAll(byPeer, order[i..])
         == (if order[i] in byPeer then [ConversationClosed(None, byPeer[order[i]].id)] else []) + ClosedAll(byPeer, order[i + 1..])
  {
    assert order[i..][1..] == order[i + 1..];
  }

  /** What a flush has done so far, followed by what remains. */
  function Then(actions: seq<Action>, fates: seq<Fate>, rest: Progress): Progress {
    Progress(rest.client, actions + rest.actions, fates + rest.fates)
  }

  function Bound(actions: seq<Action>, rest: Rebound): Rebound {
    if rest.ReboundOk? then ReboundOk(rest.session, actions + rest.actions) else rest
  }

  lemma FlushedHead(env: ClientEnv, c: Client, now: Time, draws: ClientDraws, convs: seq<Option<ConvId>>,
                    actions: seq<Action>, fates: seq<Fate>, head: Progress)
    requires c.mode.Ready? && !Stale(env, c, now) && c.queue != []
    requires head == FlushHead(env, c, now, draws, DrawAt(convs))
    ensures Then(actions, fates, Flush(env, c, now, draws, convs))
         == Then(actions + head.actions, fates + head.fates, Flush(env, head.client, now, draws, DrawsAfter(convs)))
  {
    var rest := Flush(env, head.client, now, draws, DrawsAfter(convs));
    assert actions + (head.actions + rest.actions) == actions + head.actions + rest.actions;
    assert fates + (head.fates + rest.fates) == fates + head.fates + rest.fates;
  }

  lemma BoundStep(actions: seq<Action>, sent: seq<Action>, rest: Rebound)
    ensures Bound(actions, Bound(sent, rest)) == Bound(actions + sent, rest)
  {
    if rest.ReboundOk? {
      assert actions + (sent + rest.actions) == actions + sent + rest.actions;
    }
  }

  /** The local peer of the conversation that a record's handle stands for. */
  function PeerNamed(c: Client, session: ClientSession, frame: Frame): Option<LocalPeer>
    requires frame.RecordMsg?
  {
    if frame.header.handle.Some? && frame.header.handle.value in session.handles.byHandle
       && session.handles.byHandle[frame.header.handle.value] in c.byId
    then Some(c.byId[session.handles.byHandle[frame.header.handle.value]]) else None
  }

  class Engine {
    const env: ClientEnv
    var mode: SessionState
    var handshake: Option<Handshake>
    var session: Option<ClientSession>
    var byPeer: map<LocalPeer, Conversation>
    var byId: map<ConvId, LocalPeer>
    var queue: seq<Queued>

    function View(): Client
      reads this
    {
      Client(mode, handshake, session, byPeer, byId, queue)
    }

    constructor (env: ClientEnv)
      ensures this.env == env && View() == NewClient()
    {
      this.env := env;
      mode, handshake, session := Idle, None, None;
      byPeer, byId, queue := map[], map[], [];
    }

    predicate IsHandshaking()
      reads this
    {
      mode.Handshaking? || mode.Reconnecting?
    }

    function SessionIdOf(): Option<SessionId>
      reads this
    {
      if session.Some? then Some(session.value.id) else None
    }

    // -------------------------------------------------------------- handshake

    /** The credential to offer: the first one found, if every conversation holds
        one from the same session. */
    method Offer(order: seq<LocalPeer>) returns (credential: Option<Credential>)
      ensures credential == OfferedCredential(byPeer, order)
    {
      var i := 0;
      while i < |order| && !(order[i] in byPeer && byPeer[order[i]].ticket.Some?)
        invariant 0 <= i <= |order|
        invariant FirstTicket(byPeer, order) == FirstTicket(byPeer, order[i..])
      {
        assert order[i..][1..] == order[i + 1..];
        i := i + 1;
      }
      if i == |order| {
        return None;
      }
      var first := byPeer[order[i]].ticket;
      if forall p :: p in byPeer ==> byPeer[p].ticket.Some? && byPeer[p].ticket.value.source == first.value.source {
        return Some(first.value.credential);
      }
      return None;
    }

    method BeginHandshake(now: Time, state: SessionState, draws: ClientDraws) returns (ok: bool, actions: seq<Action>)
      modifies this
      ensures match ClientSpec.BeginHandshake(env, old(View()), now, state, draws)
              case BegunOk(c, a) => ok && View() == c && actions == a
              case BegunErr => !ok && View() == old(View())
    {
      var offer: Option<Credential> := None;
      if state.Reconnecting? {
        offer := Offer(draws.order);
      }
      if draws.hello.None? {
        return false, [];
      }
      var hello := ClientHello(draws.hello.value.handshakeId, draws.hello.value.clientNonce, env.cfg.suite, None, offer);
      handshake := Some(Handshake(hello, AwaitingServerHello, now, now, 1));
      mode := state;
      return true, [SendFrame(env.serverPeer, HelloMsg(hello)), ScheduleTimer(env.cfg.handshakeRetryInterval)];
    }

    method BeginReconnect(now: Time, draws: ClientDraws) returns (actions: seq<Action>)
      modifies this
      ensures Progress(View(), actions, []) == ClientSpec.BeginReconnect(env, old(View()), now, draws)
    {
      actions := [];
      if session.Some? {
        actions := [SessionClosed(env.serverPeer, session.value.id)];
        session := None;
      }
      handshake := None;
      assert View() == old(View()).(session := None, handshake := None);
      var ok, more := BeginHandshake(now, Reconnecting, draws);
      if ok {
        actions := actions + more;
      } else {
        mode := Closed;
      }
    }

    method HandleRetry(retry: HelloRetry, now: Time) returns (reply: Reply)
      modifies this
      ensures ClientOutcome(View(), reply, []) == ClientSpec.HandleRetry(env, old(View()), retry, now)
    {
      if !IsHandshaking() {
        return Err(UnexpectedMessage);
      }
      if handshake.None? {
        return Err(SessionNotReady);
      }
      if !handshake.value.phase.AwaitingServerHello? {
        return Err(UnexpectedMessage);
      }
      var problem := RetryProblem(env.psk, retry, handshake.value.hello);
      if problem.Some? {
        return Err(problem.value);
      }
      var hello := handshake.value.hello.(cookie := Some(retry.body.cookie));
      handshake := Some(handshake.value.(hello := hello, lastSentAt := now, attempts := Increment(handshake.value.attempts)));
      return Ok([SendFrame(env.serverPeer, HelloMsg(hello)), ScheduleTimer(env.cfg.handshakeRetryInterval)]);
    }

    /** The session that issued the credential being resumed. */
    method SourceOf(order: seq<LocalPeer>, credential: Credential) returns (source: Option<SessionId>)
      ensures source == TicketSource(byPeer, order, credential)
    {
      var i := 0;
      while i < |order|
        invariant 0 <= i <= |order|
        invariant TicketSource(byPeer, order, credential) == TicketSource(byPeer, order[i..], credential)
      {
        if order[i] in byPeer && byPeer[order[i]].ticket.Some? && byPeer[order[i]].ticket.value.credential == credential {
          return Some(byPeer[order[i]].ticket.value.source);
        }
        assert order[i..][1..] == order[i + 1..];
        i := i + 1;
      }
      return None;
    }

    method HandleServerHello(sid: SessionId, sh: ServerHello, now: Time, draws: ClientDraws) returns (reply: Reply)
      modifies this
      ensures ClientOutcome(View(), reply, []) == ClientSpec.HandleServerHello(env, old(View()), sid, sh, now, draws)
    {
      if !IsHandshaking() {
        return Err(UnexpectedMessage);
      }
      if handshake.None? {
        return Err(SessionNotReady);
      }
      if sid == 0 {
        return Err(Malformed);
      }
      var h := handshake.value;
      var problem := ServerHelloProblem(env.psk, sh, h.hello, sid);
      if problem.Some? {
        return Err(problem.value);
      }
      if h.phase.AwaitingServerAck? {
        if h.phase.serverHello != sh || SessionIdOf() != Some(sid) {
          return Err(UnexpectedMessage);
        }
        handshake := Some(h.(lastSentAt := now, attempts := Increment(h.attempts)));
        return Ok([SendFrame(env.serverPeer, h.phase.finish), ScheduleTimer(env.cfg.handshakeRetryInterval)]);
      }
      var finish := FinishMsg(sid, CreateFinish(env.psk, h.hello, sh, sid));
      var key := SessionKey(env.psk, h.hello, sh, sid);
      var source: Option<SessionId> := None;
      if h.hello.resumption.Some? {
        source := SourceOf(draws.order, h.hello.resumption.value);
      }
      session := Some(ClientSession(sid,
        Sealer(env.cfg.suite, ClientToServer, sid, DirectionKey(key, ClientToServer), 0),
        Opener(env.cfg.suite, ServerToClient, sid, DirectionKey(key, ServerToClient), NewWindow(env.cfg.replayWindowSize)),
        now, sh.body.resumed, NewTable(), source));
      handshake := Some(h.(phase := AwaitingServerAck(sh, finish), lastSentAt := now, attempts := Increment(h.attempts)));
      return Ok([SendFrame(env.serverPeer, finish), ScheduleTimer(env.cfg.handshakeRetryInterval)]);
    }

    // -------------------------------------------------------------- datagrams

    method Enqueue(d: Datagram, now: Time) returns (actions: seq<Action>, ghost fates: seq<Fate>)
      modifies `queue
      ensures Progress(View(), actions, fates) == ClientSpec.Enqueue(env, old(View()), d, now)
    {
      if |queue| >= env.cfg.reconnectQueueCapacity {
        return [DatagramDropped(d.localPeer, ReconnectQueueFull)], [Lost(d, ReconnectQueueFull)];
      }
      queue := queue + [Queued(d, now)];
      return [ScheduleTimer(env.cfg.reconnectQueueTimeout)], [];
    }

    /** Sends a datagram through the session, opening its peer's conversation. */
    method SendData(d: Datagram, now: Time, draw: Option<ConvId>) returns (reply: Reply, ghost fates: seq<Fate>)
      modifies this
      ensures ClientOutcome(View(), reply, fates) == ClientSpec.SendData(env, old(View()), d, now, draw)
    {
      var actions: seq<Action> := [];
      var id: ConvId;
      if d.localPeer in byPeer {
        id := byPeer[d.localPeer].id;
        byPeer := byPeer[d.localPeer := byPeer[d.localPeer].(lastActivity := now)];
      } else {
        if |byPeer| >= env.cfg.maxConversations {
          return Err(ConversationCapacity), [];
        }
        if draw.None? {
          return Err(RandomnessUnavailable), [];
        }
        id := draw.value;
        byPeer := byPeer[d.localPeer := Conversation(id, now, None)];
        byId := byId[id := d.localPeer];
        actions := [ConversationOpened(SessionIdOf(), id)];
      }
      if session.None? {
        return Err(SessionNotReady), [];
      }
      var given := Allocate(session.value.handles, id);
      if given.HandleErr? {
        return Err(ConversationHandleExhausted), [];
      }
      session := Some(session.value.(handles := given.table));
      var record := Seal(session.value.sealer, Data, Some(given.handle), Payload(d.payload));
      if record.SealErr? {
        return Err(record.error), [];
      }
      session := Some(session.value.(sealer := record.sealer));
      return Ok(actions + [SendFrame(env.serverPeer, record.frame)]), [Carried(d, id, record.frame)];
    }

    method HandleLocal(d: Datagram, now: Time, draw: Option<ConvId>, draws: ClientDraws)
      returns (reply: Reply, ghost fates: seq<Fate>)
      modifies this
      ensures ClientOutcome(View(), reply, fates) == ClientSpec.HandleLocal(env, old(View()), d, now, draw, draws)
    {
      if |d.payload| > env.cfg.maxFramePayload {
        return Err(PayloadTooLarge), [];
      }
      if mode.Ready? && session.Some? && Elapsed(now, session.value.lastReceivedAt) >= env.cfg.sessionTimeout {
        var actions := BeginReconnect(now, draws);
        if IsHandshaking() {
          var more, f := Enqueue(d, now);
          return Ok(actions + more), f;
        }
        return Ok(actions + [DatagramDropped(d.localPeer, ConnectionClosed)]), [Lost(d, ConnectionClosed)];
      }
      if !mode.Ready? {
        if IsHandshaking() {
          var actions, f := Enqueue(d, now);
          return Ok(actions), f;
        }
        return Err(SessionNotReady), [];
      }
      reply, fates := SendData(d, now, draw);
    }

    /** Takes the front of the queue and sends it, or reports it dropped. */
    method FlushHead(now: Time, draws: ClientDraws, draw: Option<ConvId>) returns (actions: seq<Action>, ghost fates: seq<Fate>)
      requires mode.Ready? && !Stale(env, View(), now) && queue != []
      modifies this
      ensures Progress(View(), actions, fates) == ClientSpec.FlushHead(env, old(View()), now, draws, draw)
    {
      var head := queue[0];
      queue := queue[1..];
      if Elapsed(now, head.queuedAt) >= env.cfg.reconnectQueueTimeout {
        return [DatagramDropped(head.datagram.localPeer, ReconnectQueueExpired)], [Lost(head.datagram, ReconnectQueueExpired)];
      }
      assert View() == old(View()).(queue := old(queue)[1..]);
      var reply, f := HandleLocal(head.datagram, now, draw, draws);
      if reply.Ok? {
        return reply.actions, f;
      }
      return [DatagramDropped(head.datagram.localPeer, ConnectionClosed)], [Lost(head.datagram, ConnectionClosed)];
    }

    /** Empties the queue through the session that has just become ready. */
    method Flush(now: Time, draws: ClientDraws, convs: seq<Option<ConvId>>) returns (actions: seq<Action>, ghost fates: seq<Fate>)
      requires mode.Ready? && !Stale(env, View(), now)
      modifies this
      ensures Progress(View(), actions, fates) == ClientSpec.Flush(env, old(View()), now, draws, convs)
    {
      var left := convs;
      actions, fates := [], [];
      while queue != []
        invariant mode.Ready? && !Stale(env, View(), now)
        invariant ClientSpec.Flush(env, old(View()), now, draws, convs)
               == Then(actions, fates, ClientSpec.Flush(env, View(), now, draws, left))
        decreases |queue|
      {
        ghost var was := View();
        var more, f := FlushHead(now, draws, DrawAt(left));
        FlushedHead(env, was, now, draws, left, actions, fates, Progress(View(), more, f));
        actions, fates := actions + more, fates + f;
        left := DrawsAfter(left);
      }
    }

    /** Drops the datagrams at the front that have waited too long. */
    method ExpireQueue(now: Time) returns (actions: seq<Action>, ghost fates: seq<Fate>)
      modifies `queue
      ensures Progress(View(), actions, fates) == ClientSpec.ExpireQueue(env, old(View()), now)
    {
      ghost var n := 0;
      actions, fates := [], [];
      while queue != [] && Elapsed(now, queue[0].queuedAt) >= env.cfg.reconnectQueueTimeout
        invariant n <= |old(queue)| && queue == old(queue)[n..]
        invariant forall i :: 0 <= i < n ==> Elapsed(now, old(queue)[i].queuedAt) >= env.cfg.reconnectQueueTimeout
        invariant actions == DropAll(old(queue)[..n], ReconnectQueueExpired)
        invariant fates == LostAll(old(queue)[..n], ReconnectQueueExpired)
        decreases |queue|
      {
        DropAllLast(old(queue)[..n], queue[0], ReconnectQueueExpired);
        assert old(queue)[..n + 1] == old(queue)[..n] + [queue[0]];
        actions := actions + [DatagramDropped(queue[0].datagram.localPeer, ReconnectQueueExpired)];
        fates := fates + [Lost(queue[0].datagram, ReconnectQueueExpired)];
        queue := queue[1..];
        n := n + 1;
      }
      ExpiredPrefixIs(env, old(queue), now, n);
      if queue != [] {
        actions := actions + [ScheduleTimer(env.cfg.reconnectQueueTimeout)];
      }
    }

    method ClearQueue(reason: DropReason) returns (actions: seq<Action>, ghost fates: seq<Fate>)
      modifies `queue
      ensures queue == []
      ensures actions == DropAll(old(queue), reason) && fates == LostAll(old(queue), reason)
    {
      ghost var n := 0;
      actions, fates := [], [];
      while queue != []
        invariant n <= |old(queue)| && queue == old(queue)[n..]
        invariant actions == DropAll(old(queue)[..n], reason) && fates == LostAll(old(queue)[..n], reason)
        decreases |queue|
      {
        DropAllLast(old(queue)[..n], queue[0], reason);
        assert old(queue)[..n + 1] == old(queue)[..n] + [queue[0]];
        actions := actions + [DatagramDropped(queue[0].datagram.localPeer, reason)];
        fates := fates + [Lost(queue[0].datagram, reason)];
        queue := queue[1..];
        n := n + 1;
      }
      assert old(queue)[..n] == old(queue);
    }

    // ------------------------------------------------- acknowledgement and records

    /** Forgets every conversation, reporting each as closed. */
    method CloseAll(order: seq<LocalPeer>) returns (actions: seq<Action>)
      modifies `byPeer, `byId
      ensures byPeer == map[] && byId == map[]
      ensures actions == ClosedAll(old(byPeer), order)
    {
      actions := [];
      var i := 0;
      assert order[0..] == order;
      while i < |order|
        invariant 0 <= i <= |order|
        invariant byPeer == old(byPeer)
        invariant ClosedAll(old(byPeer), order) == actions + ClosedAll(old(byPeer), order[i..])
      {
        ClosedAllNext(old(byPeer), order, i);
        var closed := if order[i] in byPeer then [ConversationClosed(None, byPeer[order[i]].id)] else [];
        ghost var rest := ClosedAll(old(byPeer), order[i + 1..]);
        assert actions + (closed + rest) == actions + closed + rest;
        actions := actions + closed;
        i := i + 1;
      }
      assert order[i..] == [];
      byPeer, byId := map[], map[];
    }

    /** Announces every carried-over conversation on the resumed session. */
    method RebindAll(order: seq<LocalPeer>) returns (actions: seq<Action>, error: Option<EngineError>)
      requires session.Some?
      modifies `session
      ensures session.Some?
      ensures match Rebind(env, old(session.value), byPeer, order)
              case ReboundOk(s, a) => session.value == s && error == None && actions == a
              case ReboundErr(s, e) => session.value == s && error == Some(e)
    {
      actions := [];
      var i := 0;
      while i < |order|
        invariant 0 <= i <= |order| && session.Some?
        invariant Rebind(env, old(session.value), byPeer, order)
               == Bound(actions, Rebind(env, session.value, byPeer, order[i..]))
      {
        assert order[i..][1..] == order[i + 1..];
        if order[i] in byPeer && byPeer[order[i]].ticket.Some?
           && Some(byPeer[order[i]].ticket.value.source) == session.value.source {
          var conv := byPeer[order[i]];
          var given := Allocate(session.value.handles, conv.id);
          if given.HandleErr? {
            return actions, Some(ConversationHandleExhausted);
          }
          var record := Seal(session.value.sealer, ResumeConversation, Some(given.handle),
                             CredentialBytes(conv.ticket.value.credential));
          session := Some(session.value.(handles := given.table));
          if record.SealErr? {
            return actions, Some(record.error);
          }
          session := Some(session.value.(sealer := record.sealer));
          var sent := [SendFrame(env.serverPeer, record.frame)];
          BoundStep(actions, sent, Rebind(env, session.value, byPeer, order[i + 1..]));
          actions := actions + sent;
        }
        i := i + 1;
      }
      return actions, None;
    }

    method AcceptAck(now: Time, draws: ClientDraws) returns (reply: Reply, ghost fates: seq<Fate>)
      requires env.cfg.sessionTimeout > 0 && session.Some?
      modifies this
      ensures ClientOutcome(View(), reply, fates) == ClientSpec.AcceptAck(env, old(View()), old(session.value), now, draws)
    {
      var declined := handshake.Some? && handshake.value.hello.resumption.Some? && !session.value.resumed;
      handshake, mode := None, Ready;
      session := Some(session.value.(lastReceivedAt := now));
      var actions: seq<Action> := [];
      if declined {
        session := Some(session.value.(handles := NewTable()));
        actions := CloseAll(draws.order);
      }
      ghost var c1 := Acknowledged(old(View()), old(session.value), now);
      assert View() == c1;
      actions := actions + [SessionEstablished(env.serverPeer, session.value.id, env.cfg.suite, session.value.resumed)];
      RebindKeeps(env, session.value, byPeer, draws.order);
      var bound: seq<Action> := [];
      if session.value.resumed {
        var error: Option<EngineError>;
        bound, error := RebindAll(draws.order);
        if error.Some? {
          assert View() == c1.(session := session);
          return Err(error.value), [];
        }
      }
      assert View() == c1.(session := session);
      var flushed, f := Flush(now, draws, draws.convs);
      return Ok(actions + bound + flushed + [ScheduleTimer(env.cfg.sessionTimeout)]), f;
    }

    /** The local peer of the conversation a record names. */
    method PeerOfRecord(frame: Frame) returns (peer: Option<LocalPeer>)
      requires frame.RecordMsg? && session.Some?
      ensures peer == PeerNamed(View(), session.value, frame)
    {
      if frame.header.handle.None? || frame.header.handle.value !in session.value.handles.byHandle {
        return None;
      }
      var id := session.value.handles.byHandle[frame.header.handle.value];
      if id !in byId {
        return None;
      }
      return Some(byId[id]);
    }

    method StoreTicket(frame: Frame, plain: Plain, now: Time) returns (reply: Reply)
      requires frame.RecordMsg? && session.Some?
      modifies `byPeer
      ensures ClientOutcome(View(), reply, []) == ClientSpec.StoreTicket(old(View()), session.value, frame, plain, now)
    {
      var peer := PeerOfRecord(frame);
      if peer.None? {
        return Err(UnknownConversation);
      }
      if !plain.CredentialBytes? {
        return Err(InvalidResumptionCredential);
      }
      if peer.value in byPeer {
        byPeer := byPeer[peer.value := byPeer[peer.value].(ticket := Some(Ticket(session.value.id, plain.credential)),
                                                           lastActivity := now)];
      }
      return Ok([]);
    }

    method DeliverReply(frame: Frame, plain: Plain, now: Time) returns (reply: Reply)
      requires frame.RecordMsg? && session.Some?
      modifies `byPeer
      ensures ClientOutcome(View(), reply, []) == ClientSpec.DeliverReply(old(View()), session.value, frame, plain, now)
    {
      var peer := PeerOfRecord(frame);
      if peer.None? {
        return Err(UnknownConversation);
      }
      if peer.value in byPeer {
        byPeer := byPeer[peer.value := byPeer[peer.value].(lastActivity := now)];
      }
      return Ok([DeliverToClient(peer.value, PayloadOf(plain))]);
    }

    method HandleRecord(frame: Frame, now: Time, draws: ClientDraws) returns (reply: Reply, ghost fates: seq<Fate>)
      requires env.cfg.sessionTimeout > 0
      modifies this
      ensures ClientOutcome(View(), reply, fates) == ClientSpec.HandleRecord(env, old(View()), frame, now, draws)
    {
      fates := [];
      if !mode.Ready? && !IsHandshaking() {
        return Err(SessionNotReady), fates;
      }
      if session.None? {
        return Err(SessionNotReady), fates;
      }
      var result := Open(session.value.opener, frame);
      if result.OpenErr? {
        if result.error == ReplayDuplicate && frame.RecordMsg? && frame.header.ftype.HandshakeAck? && mode.Ready? {
          return Ok([]), fates;
        }
        return Err(result.error), fates;
      }
      session := Some(session.value.(opener := result.opener));
      if frame.header.ftype.HandshakeAck? {
        if !IsHandshaking() {
          return Ok([]), fates;
        }
        reply, fates := AcceptAck(now, draws);
        return;
      }
      if !mode.Ready? {
        return Err(SessionNotReady), fates;
      }
      session := Some(session.value.(lastReceivedAt := now));
      if frame.header.ftype.ResumptionCredential? {
        reply := StoreTicket(frame, result.plain, now);
      } else if !frame.header.ftype.Data? {
        reply := Ok([]);
      } else {
        reply := DeliverReply(frame, result.plain, now);
      }
    }

    method HandleTunnel(from: PeerId, frame: Frame, now: Time, draws: ClientDraws) returns (reply: Reply, ghost fates: seq<Fate>)
      requires env.cfg.sessionTimeout > 0
      modifies this
      ensures ClientOutcome(View(), reply, fates) == ClientSpec.HandleTunnel(env, old(View()), from, frame, now, draws)
    {
      fates := [];
      if from != env.serverPeer {
        return Err(UnexpectedPeer), fates;
      }
      match frame
      case Undecodable => reply := Err(Malformed);
      case RetryMsg(retry) => reply := HandleRetry(retry, now);
      case ServerHelloMsg(sid, sh) => reply := HandleServerHello(sid, sh, now, draws);
      case _ => reply, fates := HandleRecord(frame, now, draws);
    }

    // -------------------------------------------------------------- timers

    method ExpireHandshake(now: Time) returns (actions: seq<Action>, ghost fates: seq<Fate>)
      modifies this
      ensures Progress(View(), actions, fates) == ClientSpec.ExpireHandshake(env, old(View()), now)
    {
      actions, fates := [], [];
      if !IsHandshaking() || handshake.None? {
        return;
      }
      var h := handshake.value;
      if HandshakeOver(env, h, now) {
        var closed := SessionIdOf();
        session, handshake, mode := None, None, Closed;
        actions, fates := ClearQueue(ConnectionClosed);
        if closed.Some? {
          actions := actions + [SessionClosed(env.serverPeer, closed.value)];
        }
      } else if RetryDue(env, h, now) {
        handshake := Some(h.(lastSentAt := now, attempts := h.attempts + 1));
        actions := [SendFrame(env.serverPeer, HandshakeFrame(h)), ScheduleTimer(env.cfg.handshakeRetryInterval)];
      }
    }

    method Forget(peer: LocalPeer, id: ConvId)
      modifies `byPeer, `byId, `session
      ensures View() == ClientSpec.Forget(old(View()), peer, id)
    {
      byPeer, byId := byPeer - {peer}, byId - {id};
      if session.Some? {
        session := Some(session.value.(handles := Remove(session.value.handles, id)));
      }
    }

    method ExpireConversations(now: Time, order: seq<LocalPeer>) returns (actions: seq<Action>)
      modifies `byPeer, `byId, `session
      ensures Progress(View(), actions, []) == ClientSpec.ExpireConversations(env, old(View()), now, order)
    {
      actions := [];
      var i := 0;
      while i < |order|
        invariant 0 <= i <= |order|
        invariant ClientSpec.ExpireConversations(env, old(View()), now, order)
               == Then(actions, [], ClientSpec.ExpireConversations(env, View(), now, order[i..]))
      {
        assert order[i..][1..] == order[i + 1..];
        if order[i] in byPeer && IdleConversation(env, byPeer[order[i]], now) {
          var id := byPeer[order[i]].id;
          actions := actions + [ConversationClosed(SessionIdOf(), id)];
          Forget(order[i], id);
        }
        i := i + 1;
      }
    }

    method Expire(now: Time, draws: ClientDraws) returns (actions: seq<Action>, ghost fates: seq<Fate>)
      modifies this
      ensures Progress(View(), actions, fates) == ClientSpec.Expire(env, old(View()), now, draws)
    {
      actions, fates := ExpireHandshake(now);
      var dropped, lost := ExpireQueue(now);
      var closed := ExpireConversations(now, draws.order);
      actions, fates := actions + dropped + closed, fates + lost;
    }

    method Close(id: ConvId) returns (actions: seq<Action>)
      modifies this
      ensures Progress(View(), actions, []) == CloseOne(old(View()), id)
    {
      if id !in byId {
        return [];
      }
      Forget(byId[id], id);
      return [ConversationClosed(SessionIdOf(), id)];
    }

    /** One event: exactly the step the theorems about the client speak of. */
    method Handle(event: ClientEvent, now: Time, draws: ClientDraws) returns (reply: Reply, ghost fates: seq<Fate>)
      requires env.cfg.sessionTimeout > 0
      modifies this
      ensures ClientOutcome(View(), reply, fates) == ClientStep(env, old(View()), event, now, draws)
    {
      fates := [];
      match event
      case Start =>
        if !mode.Idle? {
          return Err(SessionNotReady), fates;
        }
        var ok, actions := BeginHandshake(now, Handshaking, draws);
        reply := if ok then Ok(actions) else Err(RandomnessUnavailable);
      case Reconnect =>
        if !mode.Ready? {
          return Err(SessionNotReady), fates;
        }
        var actions := BeginReconnect(now, draws);
        reply := Ok(actions);
      case ClientDatagram(d) =>
        reply, fates := HandleLocal(d, now, DrawAt(draws.convs), draws);
      case TunnelFrame(from, frame) =>
        reply, fates := HandleTunnel(from, frame, now, draws);
      case TimeAdvanced(at) =>
        var actions: seq<Action>;
        actions, fates := Expire(at, draws);
        reply := Ok(actions);
      case CloseConversation(wanted, conv) =>
        if wanted.Some? && wanted != SessionIdOf() {
          return Err(UnknownSession), fates;
        }
        var actions := Close(conv);
        reply := Ok(actions);
      case ServerDatagram =>
        reply := Err(InvalidRole);
    }
  }
}
