/** The client engine as a function from a state and an event to the next state
    and the reply. Randomness and hash-table order are inputs of the event.

    A datagram carries its arrival number `serial`, and every outcome lists what
    became of which datagram (`Fate`). No branch reads either; they are there so
    that conservation and origin can be stated. */
module ClientSpec {
  import opened Base
  import opened Protocol
  import opened Config
  import opened Messages
  import opened ReplaySpec
  import opened Sessions

  datatype SessionState = Idle | Handshaking | Ready | Reconnecting | Closed

  /** A resumption credential and the session that issued it. */
  datatype Ticket = Ticket(source: SessionId, credential: Credential)

  datatype Conversation = Conversation(id: ConvId, lastActivity: Time, ticket: Option<Ticket>)

  datatype Datagram = Datagram(localPeer: LocalPeer, payload: seq<byte>, serial: nat)

  datatype Queued = Queued(datagram: Datagram, queuedAt: Time)

  datatype Phase = AwaitingServerHello | AwaitingServerAck(serverHello: ServerHello, finish: Frame)

  datatype Handshake = Handshake(hello: ClientHello, phase: Phase, startedAt: Time, lastSentAt: Time, attempts: nat)

  datatype ClientSession = ClientSession(id: SessionId, sealer: Sealer, opener: Opener, lastReceivedAt: Time,
                                         resumed: bool, handles: HandleTable, source: Option<SessionId>)

  datatype Client = Client(mode: SessionState, handshake: Option<Handshake>, session: Option<ClientSession>,
                           byPeer: map<LocalPeer, Conversation>, byId: map<ConvId, LocalPeer>, queue: seq<Queued>)

  datatype ClientEnv = ClientEnv(cfg: EngineConfig, psk: nat, serverPeer: PeerId)

  datatype Fate =
    | Carried(datagram: Datagram, conv: ConvId, frame: Frame)
    | Lost(datagram: Datagram, reason: DropReason)

  datatype HelloRandom = HelloRandom(handshakeId: nat, clientNonce: nat)

  /** What the platform supplies to one event: the random values (`None` when
      the generator fails) and the order in which `by_peer` is visited. */
  datatype ClientDraws = ClientDraws(hello: Option<HelloRandom>, convs: seq<Option<ConvId>>, order: seq<LocalPeer>)

  datatype ClientEvent =
    | Start
    | Reconnect
    | ClientDatagram(datagram: Datagram)
    | TunnelFrame(from: PeerId, frame: Frame)
    | TimeAdvanced(at: Time)
    | CloseConversation(session: Option<SessionId>, conv: ConvId)
    | ServerDatagram

  datatype ClientOutcome = ClientOutcome(client: Client, reply: Reply, fates: seq<Fate>)

  /** An infallible part of an event. */
  datatype Progress = Progress(client: Client, actions: seq<Action>, fates: seq<Fate>)

  function NewClient(): Client {
    Client(Idle, None, None, map[], map[], [])
  }

  predicate IsHandshaking(c: Client) {
    c.mode.Handshaking? || c.mode.Reconnecting?
  }

  function CurrentSession(c: Client): Option<SessionId> {
    if c.session.Some? then Some(c.session.value.id) else None
  }

  function Refuse(c: Client, e: EngineError): ClientOutcome {
    ClientOutcome(c, Err(e), [])
  }

  function Answer(p: Progress): ClientOutcome {
    ClientOutcome(p.client, Ok(p.actions), p.fates)
  }

  // ---------------------------------------------------------------- handshake

  function FirstTicket(byPeer: map<LocalPeer, Conversation>, order: seq<LocalPeer>): Option<Ticket> {
    if order == [] then None
    else if order[0] in byPeer && byPeer[order[0]].ticket.Some? then byPeer[order[0]].ticket
    else FirstTicket(byPeer, order[1..])
  }

  /** The credential a reconnecting client offers: one it holds, provided every
      conversation holds one from the same session. */
  function OfferedCredential(byPeer: map<LocalPeer, Conversation>, order: seq<LocalPeer>): Option<Credential> {
    var first := FirstTicket(byPeer, order);
    if first.Some? && (forall p :: p in byPeer ==>
                         byPeer[p].ticket.Some? && byPeer[p].ticket.value.source == first.value.source)
    then Some(first.value.credential) else None
  }

  datatype Begun = BegunOk(client: Client, actions: seq<Action>) | BegunErr

  function BeginHandshake(env: ClientEnv, c: Client, now: Time, mode: SessionState, draws: ClientDraws): Begun {
    if draws.hello.None? then BegunErr
    else
      var offer := if mode.Reconnecting? then OfferedCredential(c.byPeer, draws.order) else None;
      var hello := ClientHello(draws.hello.value.handshakeId, draws.hello.value.clientNonce, env.cfg.suite, None, offer);
      BegunOk(c.(handshake := Some(Handshake(hello, AwaitingServerHello, now, now, 1)), mode := mode),
              [SendFrame(env.serverPeer, HelloMsg(hello)), ScheduleTimer(env.cfg.handshakeRetryInterval)])
  }

  function BeginReconnect(env: ClientEnv, c: Client, now: Time, draws: ClientDraws): Progress {
    var closed := if c.session.Some? then [SessionClosed(env.serverPeer, c.session.value.id)] else [];
    var c1 := c.(session := None, handshake := None);
    match BeginHandshake(env, c1, now, Reconnecting, draws)
    case BegunOk(c2, actions) => Progress(c2, closed + actions, [])
    case BegunErr => Progress(c1.(mode := Closed), closed, [])
  }

  function HandleRetry(env: ClientEnv, c: Client, retry: HelloRetry, now: Time): ClientOutcome {
    if !IsHandshaking(c) then Refuse(c, UnexpectedMessage)
    else if c.handshake.None? then Refuse(c, SessionNotReady)
    else
      var h := c.handshake.value;
      if !h.phase.AwaitingServerHello? then Refuse(c, UnexpectedMessage)
      else
        var problem := RetryProblem(env.psk, retry, h.hello);
        if problem.Some? then Refuse(c, problem.value)
        else
          var hello := h.hello.(cookie := Some(retry.body.cookie));
          var h1 := h.(hello := hello, lastSentAt := now, attempts := Increment(h.attempts));
          ClientOutcome(c.(handshake := Some(h1)),
                        Ok([SendFrame(env.serverPeer, HelloMsg(hello)), ScheduleTimer(env.cfg.handshakeRetryInterval)]),
                        [])
  }

  /** The session whose credential this is, if some conversation still holds it. */
  function TicketSource(byPeer: map<LocalPeer, Conversation>, order: seq<LocalPeer>, credential: Credential)
    : Option<SessionId>
  {
    if order == [] then None
    else if order[0] in byPeer && byPeer[order[0]].ticket.Some?
            && byPeer[order[0]].ticket.value.credential == credential
    then Some(byPeer[order[0]].ticket.value.source)
    else TicketSource(byPeer, order[1..], credential)
  }

  function NewClientSession(env: ClientEnv, c: Client, hello: ClientHello, sid: SessionId, sh: ServerHello,
                            now: Time, order: seq<LocalPeer>): ClientSession {
    var key := SessionKey(env.psk, hello, sh, sid);
    ClientSession(
      sid,
      Sealer(env.cfg.suite, ClientToServer, sid, DirectionKey(key, ClientToServer), 0),
      Opener(env.cfg.suite, ServerToClient, sid, DirectionKey(key, ServerToClient), NewWindow(env.cfg.replayWindowSize)),
      now,
      sh.body.resumed,
      NewTable(),
      if hello.resumption.Some? then TicketSource(c.byPeer, order, hello.resumption.value) else None)
  }

  function HandleServerHello(env: ClientEnv, c: Client, sid: SessionId, sh: ServerHello, now: Time,
                             draws: ClientDraws): ClientOutcome {
    if !IsHandshaking(c) then Refuse(c, UnexpectedMessage)
    else if c.handshake.None? then Refuse(c, SessionNotReady)
    else if sid == 0 then Refuse(c, Malformed)
    else
      var h := c.handshake.value;
      var problem := ServerHelloProblem(env.psk, sh, h.hello, sid);
      if problem.Some? then Refuse(c, problem.value)
      else if h.phase.AwaitingServerAck? then
        if h.phase.serverHello != sh || CurrentSession(c) != Some(sid) then Refuse(c, UnexpectedMessage)
        else ClientOutcome(
          c.(handshake := Some(h.(lastSentAt := now, attempts := Increment(h.attempts)))),
          Ok([SendFrame(env.serverPeer, h.phase.finish), ScheduleTimer(env.cfg.handshakeRetryInterval)]), [])
      else
        var finish := FinishMsg(sid, CreateFinish(env.psk, h.hello, sh, sid));
        var session := NewClientSession(env, c, h.hello, sid, sh, now, draws.order);
        var h1 := h.(phase := AwaitingServerAck(sh, finish), lastSentAt := now, attempts := Increment(h.attempts));
        ClientOutcome(
          c.(handshake := Some(h1), session := Some(session)),
          Ok([SendFrame(env.serverPeer, finish), ScheduleTimer(env.cfg.handshakeRetryInterval)]), [])
  }

  // ---------------------------------------------------------------- datagrams

  predicate Stale(env: ClientEnv, c: Client, now: Time) {
    c.session.Some? && Elapsed(now, c.session.value.lastReceivedAt) >= env.cfg.sessionTimeout
  }

  function Enqueue(env: ClientEnv, c: Client, d: Datagram, now: Time): Progress {
    if |c.queue| >= env.cfg.reconnectQueueCapacity then
      Progress(c, [DatagramDropped(d.localPeer, ReconnectQueueFull)], [Lost(d, ReconnectQueueFull)])
    else
      Progress(c.(queue := c.queue + [Queued(d, now)]), [ScheduleTimer(env.cfg.reconnectQueueTimeout)], [])
  }

  datatype Lookup = Found(client: Client, id: ConvId, actions: seq<Action>) | Missing(error: EngineError)

  /** The conversation of a local peer, opened if need be. */
  function ConversationFor(env: ClientEnv, c: Client, peer: LocalPeer, now: Time, draw: Option<ConvId>): Lookup {
    if peer in c.byPeer then
      var conv := c.byPeer[peer];
      Found(c.(byPeer := c.byPeer[peer := conv.(lastActivity := now)]), conv.id, [])
    else if |c.byPeer| >= env.cfg.maxConversations then Missing(ConversationCapacity)
    else if draw.None? then Missing(RandomnessUnavailable)
    else
      Found(c.(byPeer := c.byPeer[peer := Conversation(draw.value, now, None)], byId := c.byId[draw.value := peer]),
            draw.value, [ConversationOpened(CurrentSession(c), draw.value)])
  }

  /** Sealing a datagram of conversation `id` into the session. */
  function SealDatagram(env: ClientEnv, c: Client, d: Datagram, id: ConvId, opening: seq<Action>): ClientOutcome {
    if c.session.None? then Refuse(c, SessionNotReady)
    else
      var session := c.session.value;
      match Allocate(session.handles, id)
      case HandleErr => Refuse(c, ConversationHandleExhausted)
      case HandleOk(table, handle) =>
        match Seal(session.sealer, Data, Some(handle), Payload(d.payload))
        case SealErr(e) => Refuse(c.(session := Some(session.(handles := table))), e)
        case SealOk(sealer, frame) =>
          ClientOutcome(c.(session := Some(session.(handles := table, sealer := sealer))),
                        Ok(opening + [SendFrame(env.serverPeer, frame)]),
                        [Carried(d, id, frame)])
  }

  function SendData(env: ClientEnv, c: Client, d: Datagram, now: Time, draw: Option<ConvId>): ClientOutcome {
    match ConversationFor(env, c, d.localPeer, now, draw)
    case Missing(e) => Refuse(c, e)
    case Found(c1, id, opening) => SealDatagram(env, c1, d, id, opening)
  }

  function HandleLocal(env: ClientEnv, c: Client, d: Datagram, now: Time, draw: Option<ConvId>, draws: ClientDraws)
    : ClientOutcome
  {
    if |d.payload| > env.cfg.maxFramePayload then Refuse(c, PayloadTooLarge)
    else if c.mode.Ready? && Stale(env, c, now) then
      var p := BeginReconnect(env, c, now, draws);
      if IsHandshaking(p.client) then
        var q := Enqueue(env, p.client, d, now);
        ClientOutcome(q.client, Ok(p.actions + q.actions), q.fates)
      else
        ClientOutcome(p.client, Ok(p.actions + [DatagramDropped(d.localPeer, ConnectionClosed)]),
                      [Lost(d, ConnectionClosed)])
    else if !c.mode.Ready? then
      if IsHandshaking(c) then Answer(Enqueue(env, c, d, now)) else Refuse(c, SessionNotReady)
    else SendData(env, c, d, now, draw)
  }

  function DrawAt(convs: seq<Option<ConvId>>): Option<ConvId> {
    if convs == [] then None else convs[0]
  }

  function DrawsAfter(convs: seq<Option<ConvId>>): seq<Option<ConvId>> {
    if convs == [] then [] else convs[1..]
  }

  /** The datagram at the front of the queue, sent or dropped. */
  function FlushHead(env: ClientEnv, c: Client, now: Time, draws: ClientDraws, draw: Option<ConvId>): (p: Progress)
    requires c.mode.Ready? && !Stale(env, c, now) && c.queue != []
    ensures p.client.mode.Ready? && !Stale(env, p.client, now) && p.client.queue == c.queue[1..]
  {
    var d := c.queue[0].datagram;
    var c1 := c.(queue := c.queue[1..]);
    if Elapsed(now, c.queue[0].queuedAt) >= env.cfg.reconnectQueueTimeout then
      Progress(c1, [DatagramDropped(d.localPeer, ReconnectQueueExpired)], [Lost(d, ReconnectQueueExpired)])
    else
      var o := HandleLocal(env, c1, d, now, draw, draws);
      match o.reply
      case Ok(actions) => Progress(o.client, actions, o.fates)
      case _ => Progress(o.client, [DatagramDropped(d.localPeer, ConnectionClosed)],
                         [Lost(d, ConnectionClosed)])
  }

  /** Drains the reconnect queue through the session that has just become
      ready. It ends because such a session is not stale, so that no datagram
      goes back into the queue. */
  function Flush(env: ClientEnv, c: Client, now: Time, draws: ClientDraws, convs: seq<Option<ConvId>>): (p: Progress)
    requires c.mode.Ready? && !Stale(env, c, now)
    ensures p.client.queue == [] && p.client.mode.Ready?
    decreases |c.queue|
  {
    if c.queue == [] then Progress(c, [], [])
    else
      var head := FlushHead(env, c, now, draws, DrawAt(convs));
      var rest := Flush(env, head.client, now, draws, DrawsAfter(convs));
      Progress(rest.client, head.actions + rest.actions, head.fates + rest.fates)
  }

  function LostAll(queue: seq<Queued>, reason: DropReason): seq<Fate> {
    if queue == [] then []
    else [Lost(queue[0].datagram, reason)] + LostAll(queue[1..], reason)
  }

  function DropAll(queue: seq<Queued>, reason: DropReason): seq<Action> {
    if queue == [] then []
    else [DatagramDropped(queue[0].datagram.localPeer, reason)] + DropAll(queue[1..], reason)
  }

  /** How many datagrams at the front of the queue have waited too long. */
  function ExpiredPrefix(env: ClientEnv, queue: seq<Queued>, now: Time): (n: nat)
    ensures n <= |queue|
  {
    if queue != [] && Elapsed(now, queue[0].queuedAt) >= env.cfg.reconnectQueueTimeout
    then 1 + ExpiredPrefix(env, queue[1..], now) else 0
  }

  function ExpireQueue(env: ClientEnv, c: Client, now: Time): Progress {
    var n := ExpiredPrefix(env, c.queue, now);
    var rest := c.queue[n..];
    Progress(c.(queue := rest),
             DropAll(c.queue[..n], ReconnectQueueExpired)
             + (if rest != [] then [ScheduleTimer(env.cfg.reconnectQueueTimeout)] else []),
             LostAll(c.queue[..n], ReconnectQueueExpired))
  }

  // ------------------------------------------------- acknowledgement and records

  function ClosedAll(byPeer: map<LocalPeer, Conversation>, order: seq<LocalPeer>): seq<Action> {
    if order == [] then []
    else (if order[0] in byPeer then [ConversationClosed(None, byPeer[order[0]].id)] else [])
         + ClosedAll(byPeer, order[1..])
  }

  datatype Rebound = ReboundOk(session: ClientSession, actions: seq<Action>) | ReboundErr(session: ClientSession, error: EngineError)

  /** Re-announces every conversation that the resumed session carries over. */
  function Rebind(env: ClientEnv, session: ClientSession, byPeer: map<LocalPeer, Conversation>, order: seq<LocalPeer>)
    : Rebound
    decreases |order|
  {
    if order == [] then ReboundOk(session, [])
    else if order[0] in byPeer && byPeer[order[0]].ticket.Some?
            && Some(byPeer[order[0]].ticket.value.source) == session.source then
      var conv := byPeer[order[0]];
      match Allocate(session.handles, conv.id)
      case HandleErr => ReboundErr(session, ConversationHandleExhausted)
      case HandleOk(table, handle) =>
        match Seal(session.sealer, ResumeConversation, Some(handle), CredentialBytes(conv.ticket.value.credential))
        case SealErr(e) => ReboundErr(session.(handles := table), e)
        case SealOk(sealer, frame) =>
          match Rebind(env, session.(handles := table, sealer := sealer), byPeer, order[1..])
          case ReboundErr(s, e) => ReboundErr(s, e)
          case ReboundOk(s, actions) => ReboundOk(s, [SendFrame(env.serverPeer, frame)] + actions)
    else Rebind(env, session, byPeer, order[1..])
  }

  /** The state in which the acknowledgement has been accepted: ready, and
      rid of its conversations if the server declined to resume them. */
  function Acknowledged(c: Client, session: ClientSession, now: Time): Client {
    var declined := c.handshake.Some? && c.handshake.value.hello.resumption.Some? && !session.resumed;
    var s1 := session.(lastReceivedAt := now, handles := if declined then NewTable() else session.handles);
    var c1 := c.(handshake := None, mode := Ready, session := Some(s1));
    if declined then c1.(byPeer := map[], byId := map[]) else c1
  }

  function AcceptAck(env: ClientEnv, c: Client, session: ClientSession, now: Time, draws: ClientDraws): ClientOutcome
    requires env.cfg.sessionTimeout > 0
  {
    var c1 := Acknowledged(c, session, now);
    var declined := c.handshake.Some? && c.handshake.value.hello.resumption.Some? && !session.resumed;
    var closed := if declined then ClosedAll(c.byPeer, draws.order) else [];
    var established := [SessionEstablished(env.serverPeer, session.id, env.cfg.suite, session.resumed)];
    match (if session.resumed then Rebind(env, c1.session.value, c1.byPeer, draws.order)
           else ReboundOk(c1.session.value, []))
    case ReboundErr(s, e) => Refuse(c1.(session := Some(s)), e)
    case ReboundOk(s, bound) =>
      RebindKeeps(env, c1.session.value, c1.byPeer, draws.order);
      var p := Flush(env, c1.(session := Some(s)), now, draws, draws.convs);
      ClientOutcome(p.client,
                    Ok(closed + established + bound + p.actions + [ScheduleTimer(env.cfg.sessionTimeout)]),
                    p.fates)
  }

  /** A record that announces a conversation again. */
  predicate Announces(a: Action) {
    a.SendFrame? && a.frame.RecordMsg? && a.frame.header.ftype.ResumeConversation?
  }

  lemma {:induction false} ClosedAllCloses(byPeer: map<LocalPeer, Conversation>, order: seq<LocalPeer>)
    ensures forall a :: a in ClosedAll(byPeer, order) ==> a.ConversationClosed?
  {
    if order != [] {
      ClosedAllCloses(byPeer, order[1..]);
    }
  }

  /** Rebinding leaves everything but the sealing counter and the handles alone, and
      does nothing but announce conversations. */
  lemma {:induction false} RebindKeeps(env: ClientEnv, session: ClientSession, byPeer: map<LocalPeer, Conversation>,
                                       order: seq<LocalPeer>)
    ensures var s := Rebind(env, session, byPeer, order).session;
            s == session.(sealer := s.sealer, handles := s.handles)
    ensures var r := Rebind(env, session, byPeer, order);
            r.ReboundOk? ==> forall a :: a in r.actions ==> Announces(a)
    decreases |order|
  {
    if order != [] {
      if order[0] in byPeer && byPeer[order[0]].ticket.Some?
         && Some(byPeer[order[0]].ticket.value.source) == session.source {
        var conv := byPeer[order[0]];
        var a := Allocate(session.handles, conv.id);
        if a.HandleOk? {
          var f := Seal(session.sealer, ResumeConversation, Some(a.handle), CredentialBytes(conv.ticket.value.credential));
          if f.SealOk? {
            RebindKeeps(env, session.(handles := a.table, sealer := f.sealer), byPeer, order[1..]);
          }
        }
      } else {
        RebindKeeps(env, session, byPeer, order[1..]);
      }
    }
  }

  function StoreTicket(c: Client, session: ClientSession, frame: Frame, plain: Plain, now: Time): ClientOutcome
    requires frame.RecordMsg?
  {
    if frame.header.handle.None? || frame.header.handle.value !in session.handles.byHandle then Refuse(c, UnknownConversation)
    else
      var id := session.handles.byHandle[frame.header.handle.value];
      if id !in c.byId then Refuse(c, UnknownConversation)
      else if !plain.CredentialBytes? then Refuse(c, InvalidResumptionCredential)
      else
        var peer := c.byId[id];
        if peer !in c.byPeer then ClientOutcome(c, Ok([]), [])
        else
          var conv := c.byPeer[peer].(ticket := Some(Ticket(session.id, plain.credential)), lastActivity := now);
          ClientOutcome(c.(byPeer := c.byPeer[peer := conv]), Ok([]), [])
  }

  function PayloadOf(plain: Plain): seq<byte> {
    if plain.Payload? then plain.bytes else []
  }

  function DeliverReply(c: Client, session: ClientSession, frame: Frame, plain: Plain, now: Time): ClientOutcome
    requires frame.RecordMsg?
  {
    if frame.header.handle.None? || frame.header.handle.value !in session.handles.byHandle then Refuse(c, UnknownConversation)
    else
      var id := session.handles.byHandle[frame.header.handle.value];
      if id !in c.byId then Refuse(c, UnknownConversation)
      else
        var peer := c.byId[id];
        var c1 := if peer in c.byPeer
                  then c.(byPeer := c.byPeer[peer := c.byPeer[peer].(lastActivity := now)]) else c;
        ClientOutcome(c1, Ok([DeliverToClient(peer, PayloadOf(plain))]), [])
  }

  function HandleRecord(env: ClientEnv, c: Client, frame: Frame, now: Time, draws: ClientDraws): ClientOutcome
    requires env.cfg.sessionTimeout > 0
  {
    if !c.mode.Ready? && !IsHandshaking(c) then Refuse(c, SessionNotReady)
    else if c.session.None? then Refuse(c, SessionNotReady)
    else
      match Open(c.session.value.opener, frame)
      case OpenErr(e) =>
        if e == ReplayDuplicate && frame.RecordMsg? && frame.header.ftype.HandshakeAck? && c.mode.Ready?
        then ClientOutcome(c, Ok([]), []) else Refuse(c, e)
      case OpenOk(opener, plain) =>
        var session := c.session.value.(opener := opener);
        var c1 := c.(session := Some(session));
        if frame.header.ftype.HandshakeAck? then
          if !IsHandshaking(c) then ClientOutcome(c1, Ok([]), []) else AcceptAck(env, c1, session, now, draws)
        else if !c.mode.Ready? then Refuse(c1, SessionNotReady)
        else
          var s2 := session.(lastReceivedAt := now);
          var c2 := c.(session := Some(s2));
          if frame.header.ftype.ResumptionCredential? then StoreTicket(c2, s2, frame, plain, now)
          else if !frame.header.ftype.Data? then ClientOutcome(c2, Ok([]), [])
          else DeliverReply(c2, s2, frame, plain, now)
  }

  function HandleTunnel(env: ClientEnv, c: Client, from: PeerId, frame: Frame, now: Time, draws: ClientDraws): ClientOutcome
    requires env.cfg.sessionTimeout > 0
  {
    if from != env.serverPeer then Refuse(c, UnexpectedPeer)
    else match frame
      case Undecodable => Refuse(c, Malformed)
      case RetryMsg(retry) => HandleRetry(env, c, retry, now)
      case ServerHelloMsg(sid, sh) => HandleServerHello(env, c, sid, sh, now, draws)
      case _ => HandleRecord(env, c, frame, now, draws)
  }

  // ---------------------------------------------------------------- timers

  predicate HandshakeOver(env: ClientEnv, h: Handshake, now: Time) {
    || Elapsed(now, h.startedAt) >= env.cfg.handshakeTimeout
    || (h.attempts >= env.cfg.handshakeMaxAttempts && Elapsed(now, h.lastSentAt) >= env.cfg.handshakeRetryInterval)
  }

  predicate RetryDue(env: ClientEnv, h: Handshake, now: Time) {
    Elapsed(now, h.lastSentAt) >= env.cfg.handshakeRetryInterval && h.attempts < env.cfg.handshakeMaxAttempts
  }

  function HandshakeFrame(h: Handshake): Frame {
    if h.phase.AwaitingServerHello? then HelloMsg(h.hello) else h.phase.finish
  }

  function ExpireHandshake(env: ClientEnv, c: Client, now: Time): Progress {
    if !IsHandshaking(c) || c.handshake.None? then Progress(c, [], [])
    else
      var h := c.handshake.value;
      if HandshakeOver(env, h, now) then
        Progress(c.(session := None, handshake := None, mode := Closed, queue := []),
                 DropAll(c.queue, ConnectionClosed)
                 + (if c.session.Some? then [SessionClosed(env.serverPeer, c.session.value.id)] else []),
                 LostAll(c.queue, ConnectionClosed))
      else if RetryDue(env, h, now) then
        Progress(c.(handshake := Some(h.(lastSentAt := now, attempts := h.attempts + 1))),
                 [SendFrame(env.serverPeer, HandshakeFrame(h)), ScheduleTimer(env.cfg.handshakeRetryInterval)], [])
      else Progress(c, [], [])
  }

  predicate IdleConversation(env: ClientEnv, conv: Conversation, now: Time) {
    Elapsed(now, conv.lastActivity) >= env.cfg.conversationIdleTimeout
  }

  /** Forgetting one conversation, wherever it is recorded. */
  function Forget(c: Client, peer: LocalPeer, id: ConvId): Client {
    c.(byPeer := c.byPeer - {peer}, byId := c.byId - {id},
       session := if c.session.Some?
                  then Some(c.session.value.(handles := Remove(c.session.value.handles, id))) else None)
  }

  function ExpireConversations(env: ClientEnv, c: Client, now: Time, order: seq<LocalPeer>): Progress
    decreases |order|
  {
    if order == [] then Progress(c, [], [])
    else if order[0] in c.byPeer && IdleConversation(env, c.byPeer[order[0]], now) then
      var id := c.byPeer[order[0]].id;
      var rest := ExpireConversations(env, Forget(c, order[0], id), now, order[1..]);
      Progress(rest.client, [ConversationClosed(CurrentSession(c), id)] + rest.actions, rest.fates)
    else ExpireConversations(env, c, now, order[1..])
  }

  function Expire(env: ClientEnv, c: Client, now: Time, draws: ClientDraws): Progress {
    var p := ExpireHandshake(env, c, now);
    var q := ExpireQueue(env, p.client, now);
    var r := ExpireConversations(env, q.client, now, draws.order);
    Progress(r.client, p.actions + q.actions + r.actions, p.fates + q.fates + r.fates)
  }

  function CloseOne(c: Client, id: ConvId): Progress {
    if id !in c.byId then Progress(c, [], [])
    else Progress(Forget(c, c.byId[id], id), [ConversationClosed(CurrentSession(c), id)], [])
  }

  // ---------------------------------------------------------------- one event

  function ClientStep(env: ClientEnv, c: Client, event: ClientEvent, now: Time, draws: ClientDraws): ClientOutcome
    requires env.cfg.sessionTimeout > 0
  {
    match event
    case Start =>
      if !c.mode.Idle? then Refuse(c, SessionNotReady)
      else (match BeginHandshake(env, c, now, Handshaking, draws)
            case BegunOk(c1, actions) => ClientOutcome(c1, Ok(actions), [])
            case BegunErr => Refuse(c, RandomnessUnavailable))
    case Reconnect =>
      if !c.mode.Ready? then Refuse(c, SessionNotReady) else Answer(BeginReconnect(env, c, now, draws))
    case ClientDatagram(d) => HandleLocal(env, c, d, now, DrawAt(draws.convs), draws)
    case TunnelFrame(from, frame) => HandleTunnel(env, c, from, frame, now, draws)
    case TimeAdvanced(at) => Answer(Expire(env, c, at, draws))
    case CloseConversation(session, conv) =>
      if session.Some? && session != CurrentSession(c) then Refuse(c, UnknownSession) else Answer(CloseOne(c, conv))
    case ServerDatagram => Refuse(c, InvalidRole)
  }
}
