/** The server engine as a function from a state and an event to the next state
    and the reply. Randomness and hash-table order are inputs of the event. */
module ServerSpec {
  import opened Base
  import opened Protocol
  import opened Config
  import opened Messages
  import opened ReplaySpec
  import opened Sessions
  import RateLimit

  datatype Pending = Pending(peer: PeerId, createdAt: Time, hello: ClientHello, serverHello: ServerHello,
                             resumeFrom: Option<SessionId>)

  /** The newest resumption credential and when it runs out. */
  datatype Lease = Lease(credential: Credential, expiresAt: Time)

  datatype ServerSession = ServerSession(
    peer: PeerId, sealer: Sealer, opener: Opener, ack: Frame, finish: Frame,
    conversations: map<ConvId, Time>, handles: HandleTable, resumedFrom: Option<SessionId>,
    lease: Option<Lease>, lastActivity: Time, expiresAt: Time)

  datatype Resumable = Resumable(conversations: map<ConvId, Time>, expiresAt: Time)

  datatype Server = Server(clockOrigin: Option<Time>, pending: map<SessionId, Pending>,
                           sessions: map<SessionId, ServerSession>, resumable: map<SessionId, Resumable>,
                           buckets: map<PeerId, RateLimit.Bucket>)

  datatype ServerEnv = ServerEnv(cfg: EngineConfig, psk: nat, secret: nat)

  datatype ServerRandom = ServerRandom(nonce: nat, salt: nat)

  /** What the platform supplies to one event: random values (`None` when the
      generator fails) and the order in which hash tables are visited. */
  datatype ServerDraws = ServerDraws(sids: seq<SessionId>, hello: Option<ServerRandom>, conv: Option<ConvId>,
                                     randoms: seq<nat>, refreshOrder: seq<ConvId>,
                                     pendingOrder: seq<SessionId>, sessionOrder: seq<SessionId>,
                                     convOrder: map<SessionId, seq<ConvId>>, resumableOrder: seq<SessionId>)

  datatype ServerEvent =
    | TunnelFrame(from: PeerId, frame: Frame)
    | ServerDatagram(sid: SessionId, conv: ConvId, payload: seq<byte>)
    | CloseConversation(session: Option<SessionId>, conv: ConvId)
    | TimeAdvanced(at: Time)
    | ClientOnly

  datatype ServerOutcome = ServerOutcome(server: Server, reply: Reply)

  function NewServer(): Server {
    Server(None, map[], map[], map[], map[])
  }

  function Refuse(s: Server, e: EngineError): ServerOutcome {
    ServerOutcome(s, Err(e))
  }

  function Limits(cfg: EngineConfig): RateLimit.Limits {
    RateLimit.Limits(cfg.rateLimitBurst, cfg.rateRefillInterval, cfg.maxPendingHandshakes)
  }

  // ---------------------------------------------------------------- the clock

  function WithOrigin(s: Server, now: Time): Server {
    if s.clockOrigin.Some? then s else s.(clockOrigin := Some(now))
  }

  function NowMs(s: Server, now: Time): (ms: nat)
    ensures ms <= U64_MAX
  {
    if s.clockOrigin.Some? then Millis(Elapsed(now, s.clockOrigin.value)) else 0
  }

  // ---------------------------------------------------------------- hello

  predicate Fresh(s: Server, sid: SessionId) {
    sid != 0 && sid !in s.pending && sid !in s.sessions && sid !in s.resumable
  }

  /** The loop that draws session identifiers until one is unused. */
  function FirstFresh(s: Server, sids: seq<SessionId>): (r: Option<SessionId>)
    ensures r.Some? ==> Fresh(s, r.value) && r.value in sids
  {
    if sids == [] then None
    else if Fresh(s, sids[0]) then Some(sids[0])
    else FirstFresh(s, sids[1..])
  }

  predicate Claimed(s: Server, prior: SessionId) {
    exists sid :: sid in s.pending && s.pending[sid].resumeFrom == Some(prior)
  }

  predicate Recoverable(s: Server, prior: SessionId, conv: ConvId) {
    || (prior in s.sessions && conv in s.sessions[prior].conversations && s.sessions[prior].lease.Some?)
    || (prior in s.resumable && conv in s.resumable[prior].conversations)
  }

  /** The session a hello resumes: its credential is valid, the conversation it
      names is still held, and no other pending handshake claims it. */
  function ResumeFrom(env: ServerEnv, s: Server, hello: ClientHello, nowMs: nat): Option<SessionId> {
    if hello.resumption.None? || !CredentialVerifies(env.secret, hello.resumption.value, nowMs) then None
    else
      var prior := hello.resumption.value.body.session;
      if Recoverable(s, prior, hello.resumption.value.body.conversation) && !Claimed(s, prior) then Some(prior) else None
  }

  predicate SameAttempt(s: Server, sid: SessionId, peer: PeerId, hello: ClientHello) {
    sid in s.pending && s.pending[sid].peer == peer && s.pending[sid].hello == hello
  }

  function FindAttempt(s: Server, order: seq<SessionId>, peer: PeerId, hello: ClientHello): (r: Option<SessionId>)
    ensures r.Some? ==> SameAttempt(s, r.value, peer, hello)
    ensures r.None? ==> forall sid :: sid in order ==> !SameAttempt(s, sid, peer, hello)
  {
    if order == [] then None
    else if SameAttempt(s, order[0], peer, hello) then Some(order[0])
    else FindAttempt(s, order[1..], peer, hello)
  }

  function PendingOf(pending: map<SessionId, Pending>, peer: PeerId): set<SessionId> {
    set sid | sid in pending && pending[sid].peer == peer
  }

  /** A hello that passed the rate limit and the cookie. */
  function AdmitHello(env: ServerEnv, s: Server, peer: PeerId, hello: ClientHello, now: Time, draws: ServerDraws)
    : ServerOutcome
  {
    var found := FindAttempt(s, draws.pendingOrder, peer, hello);
    if found.Some? then
      ServerOutcome(s, Ok([SendFrame(peer, ServerHelloMsg(found.value, s.pending[found.value].serverHello))]))
    else if |s.pending| >= env.cfg.maxPendingHandshakes then Refuse(s, PendingHandshakeCapacity)
    else if |PendingOf(s.pending, peer)| >= env.cfg.maxPendingHandshakesPerPeer then Refuse(s, PerPeerPendingHandshakeCapacity)
    else
      var draw := FirstFresh(s, draws.sids);
      if draw.None? then Refuse(s, RandomnessUnavailable)
      else
        var sid := draw.value;
        var s1 := WithOrigin(s, now);
        if draws.hello.None? then Refuse(s1, RandomnessUnavailable)
        else
          var prior := ResumeFrom(env, s1, hello, NowMs(s1, now));
          var sh := CreateServerHello(env.psk, hello, sid, prior.Some?, draws.hello.value.nonce, draws.hello.value.salt);
          ServerOutcome(s1.(pending := s1.pending[sid := Pending(peer, now, hello, sh, prior)]),
                        Ok([SendFrame(peer, ServerHelloMsg(sid, sh)), ScheduleTimer(env.cfg.handshakeTimeout)]))
  }

  function HandleClientHello(env: ServerEnv, s: Server, peer: PeerId, hello: ClientHello, now: Time, draws: ServerDraws)
    : ServerOutcome
    requires env.cfg.rateRefillInterval > 0
  {
    if hello.suite != env.cfg.suite then Refuse(s, CipherSuiteMismatch)
    else
      var attempt := RateLimit.TryAttempt(Limits(env.cfg), s.buckets, peer, now);
      var s1 := s.(buckets := attempt.buckets);
      if !attempt.allowed then Refuse(s1, HandshakeRateLimited)
      else if !env.cfg.requireHandshakeCookie then AdmitHello(env, s1, peer, hello, now, draws)
      else
        var s2 := WithOrigin(s1, now);
        if CookieVerifies(env.secret, hello, peer, NowMs(s2, now), env.cfg.handshakeCookieLifetime)
        then AdmitHello(env, s2, peer, hello, now, draws)
        else ServerOutcome(s2, Ok([SendFrame(peer, RetryMsg(CreateRetry(env.psk, env.secret, hello, peer, NowMs(s2, now))))]))
  }

  // ---------------------------------------------------------------- finish

  /** The conversations a completed handshake takes over. */
  function Inherited(s: Server, from: Option<SessionId>): map<ConvId, Time> {
    if from.None? then map[]
    else if from.value in s.sessions then s.sessions[from.value].conversations
    else if from.value in s.resumable then s.resumable[from.value].conversations
    else map[]
  }

  /** The server without the session that is being resumed. */
  function Without(s: Server, from: Option<SessionId>): Server {
    if from.None? then s
    else if from.value in s.sessions then s.(sessions := s.sessions - {from.value})
    else s.(resumable := s.resumable - {from.value})
  }

  function NewServerSession(env: ServerEnv, p: Pending, sid: SessionId, finish: Frame, ack: SealResult,
                            conversations: map<ConvId, Time>, now: Time): ServerSession
    requires ack.SealOk?
  {
    var key := SessionKey(env.psk, p.hello, p.serverHello, sid);
    ServerSession(
      p.peer, ack.sealer,
      Opener(env.cfg.suite, ClientToServer, sid, DirectionKey(key, ClientToServer), NewWindow(env.cfg.replayWindowSize)),
      ack.frame, finish, conversations, NewTable(), p.resumeFrom,
      if conversations == map[] || p.hello.resumption.None? then None
      else Some(Lease(p.hello.resumption.value, now + env.cfg.resumptionLifetime)),
      now, now + env.cfg.sessionIdleTimeout)
  }

  /** The server once the pending handshake has become a session. */
  function Finished(s: Server, sid: SessionId, from: Option<SessionId>, session: ServerSession): Server {
    var s1 := Without(s, from);
    s1.(sessions := s1.sessions[sid := session], pending := s1.pending - {sid})
  }

  function SealAck(env: ServerEnv, p: Pending, sid: SessionId): (r: SealResult)
    ensures r.SealOk?
  {
    var key := SessionKey(env.psk, p.hello, p.serverHello, sid);
    Seal(Sealer(env.cfg.suite, ServerToClient, sid, DirectionKey(key, ServerToClient), 0), HandshakeAck, None, Payload([]))
  }

  /** Why a client finish is refused, if it is. */
  function FinishRefusal(env: ServerEnv, s: Server, peer: PeerId, sid: SessionId, finish: ClientFinish): Option<EngineError> {
    if sid !in s.pending then Some(UnknownPendingHandshake)
    else
      var p := s.pending[sid];
      if p.peer != peer then Some(UnexpectedPeer)
      else if |s.sessions| >= env.cfg.maxSessions && !(p.resumeFrom.Some? && p.resumeFrom.value in s.sessions) then
        Some(SessionCapacity)
      else if sid == 0 then Some(Malformed)
      else FinishProblem(env.psk, finish, p.hello, p.serverHello, sid)
  }

  /** The session that an accepted finish creates. */
  function SessionFor(env: ServerEnv, s: Server, sid: SessionId, finish: ClientFinish, now: Time): ServerSession
    requires sid in s.pending
  {
    var p := s.pending[sid];
    NewServerSession(env, p, sid, FinishMsg(sid, finish), SealAck(env, p, sid), Inherited(s, p.resumeFrom), now)
  }

  function FinishActions(env: ServerEnv, p: Pending, sid: SessionId, peer: PeerId): seq<Action> {
    [SendFrame(peer, SealAck(env, p, sid).frame), SessionEstablished(peer, sid, env.cfg.suite, p.resumeFrom.Some?)]
    + (if p.resumeFrom.Some? then [SessionResumed(peer, p.resumeFrom.value, sid)] else [])
    + [ScheduleTimer(env.cfg.sessionIdleTimeout)]
  }

  function HandleClientFinish(env: ServerEnv, s: Server, peer: PeerId, sid: SessionId, finish: ClientFinish, now: Time)
    : ServerOutcome
  {
    if sid in s.sessions then
      if s.sessions[sid].peer != peer then Refuse(s, UnexpectedPeer)
      else if s.sessions[sid].finish != FinishMsg(sid, finish) then Refuse(s, AuthenticationFailed)
      else ServerOutcome(s, Ok([SendFrame(peer, s.sessions[sid].ack)]))
    else
      var refusal := FinishRefusal(env, s, peer, sid, finish);
      if refusal.Some? then Refuse(s, refusal.value)
      else
        var p := s.pending[sid];
        ServerOutcome(Finished(s, sid, p.resumeFrom, SessionFor(env, s, sid, finish, now)), Ok(FinishActions(env, p, sid, peer)))
  }

  // ---------------------------------------------------------------- records

  datatype SessionReply = SessionReply(session: ServerSession, reply: Reply)

  function RefuseRecord(session: ServerSession, e: EngineError): SessionReply {
    SessionReply(session, Err(e))
  }

  function BindResumed(env: ServerEnv, session: ServerSession, header: Header, plain: Plain, nowMs: nat): SessionReply {
    if !plain.CredentialBytes? || !CredentialVerifies(env.secret, plain.credential, nowMs) then
      RefuseRecord(session, InvalidResumptionCredential)
    else
      var c := plain.credential.body;
      if session.resumedFrom != Some(c.session) || c.conversation !in session.conversations || header.handle.None? then
        RefuseRecord(session, UnknownConversation)
      else match Bind(session.handles, header.handle.value, c.conversation)
        case BindErr => RefuseRecord(session, UnknownConversation)
        case BindOk(table) => SessionReply(session.(handles := table), Ok([]))
  }

  datatype Refreshed =
    | RefreshedOk(session: ServerSession, actions: seq<Action>)
    | RefreshedErr(session: ServerSession, error: EngineError)
    | RefreshedPanic(session: ServerSession)

  function RandomAt(randoms: seq<nat>, i: nat): nat {
    if i < |randoms| then randoms[i] else 0
  }

  /** Issues a fresh credential to every conversation of the session. A
      conversation without a handle makes the engine panic. */
  function RefreshAll(env: ServerEnv, session: ServerSession, sid: SessionId, order: seq<ConvId>,
                      issuedAtMs: nat, expiresAtMs: nat, randoms: seq<nat>): Refreshed
    decreases |order|
  {
    if order == [] then RefreshedOk(session, [])
    else if order[0] !in session.handles.byId then RefreshedPanic(session)
    else
      var credential := IssueCredential(env.secret, sid, order[0], issuedAtMs, expiresAtMs, RandomAt(randoms, |order|));
      match Seal(session.sealer, ResumptionCredential, Some(session.handles.byId[order[0]]), CredentialBytes(credential))
      case SealErr(e) => RefreshedErr(session, e)
      case SealOk(sealer, frame) =>
        match RefreshAll(env, session.(sealer := sealer), sid, order[1..], issuedAtMs, expiresAtMs, randoms)
        case RefreshedOk(s, actions) => RefreshedOk(s, [SendFrame(session.peer, frame)] + actions)
        case other => other
  }

  predicate RefreshDue(env: ServerEnv, session: ServerSession, now: Time) {
    session.lease.None? || Elapsed(session.lease.value.expiresAt, now) <= env.cfg.resumptionLifetime / 2
  }

  datatype Routed = RoutedOk(session: ServerSession, conv: ConvId, isNew: bool) | RoutedErr(error: EngineError)

  /** The conversation a data record belongs to, opened if its handle is new,
      with its activity noted. */
  function Route(env: ServerEnv, session: ServerSession, h: Handle, now: Time, draw: Option<ConvId>): Routed {
    if h in session.handles.byHandle then
      var conv := session.handles.byHandle[h];
      RoutedOk(session.(conversations := session.conversations[conv := now]), conv, false)
    else if |session.conversations| >= env.cfg.maxConversations then RoutedErr(ConversationCapacity)
    else if draw.None? then RoutedErr(RandomnessUnavailable)
    else match Bind(session.handles, h, draw.value)
      case BindErr => RoutedErr(UnknownConversation)
      case BindOk(table) =>
        RoutedOk(session.(handles := table, conversations := session.conversations[draw.value := now]), draw.value, true)
  }

  /** The conversations after a data record: those before, and the one it is for. */
  function ConversationsAfter(session: ServerSession, h: Handle, draw: Option<ConvId>): set<ConvId> {
    session.conversations.Keys
    + (if h in session.handles.byHandle then {session.handles.byHandle[h]} else if draw.Some? then {draw.value} else {})
  }

  /** A refresh visits every conversation of its session once. */
  ghost predicate RefreshesAll(s: Server, event: ServerEvent, draws: ServerDraws) {
    event.TunnelFrame? && event.frame.RecordMsg? && event.frame.header.sid in s.sessions && event.frame.header.handle.Some? ==>
      Enumerates(draws.refreshOrder,
                 ConversationsAfter(s.sessions[event.frame.header.sid], event.frame.header.handle.value, draws.conv))
  }

  /** The credentials that go out with a data record. */
  function Renew(env: ServerEnv, session: ServerSession, sid: SessionId, h: Handle, conv: ConvId, isNew: bool,
                 now: Time, nowMs: nat, draws: ServerDraws): Refreshed {
    var expiresAtMs := Min(nowMs + Millis(env.cfg.resumptionLifetime), U64_MAX);
    var credential := IssueCredential(env.secret, sid, conv, nowMs, expiresAtMs, RandomAt(draws.randoms, 0));
    if RefreshDue(env, session, now) then
      RefreshAll(env, session.(lease := Some(Lease(credential, now + env.cfg.resumptionLifetime))), sid,
                 draws.refreshOrder, nowMs, expiresAtMs, draws.randoms)
    else if isNew then
      match Seal(session.sealer, ResumptionCredential, Some(h), CredentialBytes(credential))
      case SealErr(e) => RefreshedErr(session, e)
      case SealOk(sealer, frame) => RefreshedOk(session.(sealer := sealer), [SendFrame(session.peer, frame)])
    else RefreshedOk(session, [])
  }

  function PayloadOf(plain: Plain): seq<byte> {
    if plain.Payload? then plain.bytes else []
  }

  function TakeData(env: ServerEnv, session: ServerSession, sid: SessionId, header: Header, plain: Plain,
                    now: Time, nowMs: nat, draws: ServerDraws): SessionReply {
    if header.handle.None? then RefuseRecord(session, UnknownConversation)
    else match Route(env, session, header.handle.value, now, draws.conv)
      case RoutedErr(e) => RefuseRecord(session, e)
      case RoutedOk(s1, conv, isNew) =>
        match Renew(env, s1, sid, header.handle.value, conv, isNew, now, nowMs, draws)
        case RefreshedErr(s2, e) => RefuseRecord(s2, e)
        case RefreshedPanic(s2) => SessionReply(s2, Panic)
        case RefreshedOk(s2, credentials) =>
          SessionReply(s2, Ok((if isNew then [ConversationOpened(Some(sid), conv)] else []) + credentials
                              + [DeliverToUpstream(sid, conv, PayloadOf(plain)), ScheduleTimer(env.cfg.sessionIdleTimeout)]))
  }

  function Touch(env: ServerEnv, session: ServerSession, now: Time): ServerSession {
    session.(lastActivity := now, expiresAt := now + env.cfg.sessionIdleTimeout)
  }

  /** A record that its session has opened. */
  function TakeRecord(env: ServerEnv, session: ServerSession, sid: SessionId, header: Header, plain: Plain,
                      now: Time, nowMs: nat, draws: ServerDraws): SessionReply {
    if header.ftype.ResumeConversation? then BindResumed(env, session, header, plain, nowMs)
    else if !header.ftype.Data? then SessionReply(session, Ok([]))
    else TakeData(env, session, sid, header, plain, now, nowMs, draws)
  }

  /** A record offered to a session. */
  function OfferRecord(env: ServerEnv, session: ServerSession, sid: SessionId, frame: Frame,
                       now: Time, nowMs: nat, draws: ServerDraws): SessionReply
    requires frame.RecordMsg?
  {
    match Open(session.opener, frame)
    case OpenErr(e) => RefuseRecord(session, e)
    case OpenOk(opener, plain) =>
      TakeRecord(env, Touch(env, session.(opener := opener), now), sid, frame.header, plain, now, nowMs, draws)
  }

  function HandleRecord(env: ServerEnv, s: Server, peer: PeerId, frame: Frame, now: Time, draws: ServerDraws): ServerOutcome
    requires frame.RecordMsg?
  {
    var s1 := WithOrigin(s, now);
    var sid := frame.header.sid;
    if sid !in s1.sessions then Refuse(s1, UnknownSession)
    else if s1.sessions[sid].peer != peer then Refuse(s1, UnexpectedPeer)
    else
      var r := OfferRecord(env, s1.sessions[sid], sid, frame, now, NowMs(s1, now), draws);
      ServerOutcome(s1.(sessions := s1.sessions[sid := r.session]), r.reply)
  }

  function HandleTunnel(env: ServerEnv, s: Server, peer: PeerId, frame: Frame, now: Time, draws: ServerDraws): ServerOutcome
    requires env.cfg.rateRefillInterval > 0
  {
    match frame
    case HelloMsg(hello) => HandleClientHello(env, s, peer, hello, now, draws)
    case FinishMsg(sid, finish) => HandleClientFinish(env, s, peer, sid, finish, now)
    case RecordMsg(header, _) =>
      if IsProtected(header.ftype) then HandleRecord(env, s, peer, frame, now, draws) else Refuse(s, UnexpectedMessage)
    case Undecodable => Refuse(s, Malformed)
    case _ => Refuse(s, UnexpectedMessage)
  }

  // ------------------------------------------------------- upstream and closing

  function HandleUpstream(env: ServerEnv, s: Server, sid: SessionId, conv: ConvId, payload: seq<byte>, now: Time)
    : ServerOutcome
  {
    if |payload| > env.cfg.maxFramePayload then Refuse(s, PayloadTooLarge)
    else if sid !in s.sessions then Refuse(s, UnknownSession)
    else if conv !in s.sessions[sid].handles.byId then Refuse(s, UnknownConversation)
    else
      var session := Touch(env, s.sessions[sid], now);
      match Seal(session.sealer, Data, Some(session.handles.byId[conv]), Payload(payload))
      case SealErr(e) => Refuse(s.(sessions := s.sessions[sid := session]), e)
      case SealOk(sealer, frame) =>
        ServerOutcome(s.(sessions := s.sessions[sid := session.(sealer := sealer)]),
                      Ok([SendFrame(session.peer, frame), ScheduleTimer(env.cfg.sessionIdleTimeout)]))
  }

  function HandleClose(s: Server, sid: SessionId, conv: ConvId): ServerOutcome {
    if sid !in s.sessions then Refuse(s, UnknownSession)
    else if conv !in s.sessions[sid].conversations then Refuse(s, UnknownConversation)
    else
      var session := s.sessions[sid].(conversations := s.sessions[sid].conversations - {conv},
                                      handles := Remove(s.sessions[sid].handles, conv));
      ServerOutcome(s.(sessions := s.sessions[sid := session]), Ok([ConversationClosed(Some(sid), conv)]))
  }

  // ---------------------------------------------------------------- timers

  predicate IdleConversation(env: ServerEnv, session: ServerSession, conv: ConvId, now: Time) {
    conv in session.conversations && Elapsed(now, session.conversations[conv]) >= env.cfg.conversationIdleTimeout
  }

  function IdleConversations(env: ServerEnv, session: ServerSession, now: Time): set<ConvId> {
    set c | c in session.conversations && IdleConversation(env, session, c, now)
  }

  function Pruned(env: ServerEnv, session: ServerSession, now: Time): ServerSession {
    var idle := IdleConversations(env, session, now);
    session.(conversations := session.conversations - idle, handles := RemoveAll(session.handles, idle))
  }

  predicate SessionOver(env: ServerEnv, session: ServerSession, now: Time) {
    now >= session.expiresAt && Elapsed(now, session.lastActivity) >= env.cfg.sessionIdleTimeout
  }

  /** Closing actions of one session's idle conversations, in visiting order. */
  function PruneActions(env: ServerEnv, session: ServerSession, sid: SessionId, order: seq<ConvId>, now: Time): seq<Action> {
    if order == [] then []
    else (if IdleConversation(env, session, order[0], now) then [ConversationClosed(Some(sid), order[0])] else [])
         + PruneActions(env, session, sid, order[1..], now)
  }

  function ConvOrder(draws: ServerDraws, sid: SessionId): seq<ConvId> {
    if sid in draws.convOrder then draws.convOrder[sid] else []
  }

  function PruneAllActions(env: ServerEnv, s: Server, order: seq<SessionId>, draws: ServerDraws, now: Time): seq<Action> {
    if order == [] then []
    else (if order[0] in s.sessions
          then PruneActions(env, s.sessions[order[0]], order[0], ConvOrder(draws, order[0]), now) else [])
         + PruneAllActions(env, s, order[1..], draws, now)
  }

  function OverActions(env: ServerEnv, s: Server, order: seq<SessionId>, now: Time): seq<Action> {
    if order == [] then []
    else (if order[0] in s.sessions && SessionOver(env, s.sessions[order[0]], now)
          then [SessionClosed(s.sessions[order[0]].peer, order[0])] else [])
         + OverActions(env, s, order[1..], now)
  }

  function RecoveryActions(resumable: map<SessionId, Resumable>, order: seq<SessionId>, now: Time): seq<Action> {
    if order == [] then []
    else (if order[0] in resumable && now >= resumable[order[0]].expiresAt then [SessionRecoveryExpired(order[0])] else [])
         + RecoveryActions(resumable, order[1..], now)
  }

  /** Recovery state once this tick's idle sessions have joined it. */
  function Recoveries(env: ServerEnv, s: Server, now: Time): map<SessionId, Resumable> {
    s.resumable
    + map sid | sid in s.sessions && SessionOver(env, s.sessions[sid], now)
                && Pruned(env, s.sessions[sid], now).conversations != map[]
        :: Resumable(Pruned(env, s.sessions[sid], now).conversations, now + env.cfg.resumptionLifetime)
  }

  /** A tick visits every session, every conversation and every recovery entry,
      each once. */
  ghost predicate VisitsAll(env: ServerEnv, s: Server, now: Time, draws: ServerDraws) {
    && Enumerates(draws.sessionOrder, s.sessions.Keys)
    && (forall sid :: sid in s.sessions ==> Enumerates(ConvOrder(draws, sid), s.sessions[sid].conversations.Keys))
    && Enumerates(draws.resumableOrder, Recoveries(env, s, now).Keys)
  }

  /** `expire`: every timer of the server at once. */
  function Expire(env: ServerEnv, s: Server, now: Time, draws: ServerDraws): ServerOutcome {
    var recoveries := Recoveries(env, s, now);
    ServerOutcome(
      s.(pending := map sid | sid in s.pending && Elapsed(now, s.pending[sid].createdAt) < env.cfg.handshakeTimeout
                      :: s.pending[sid],
         sessions := map sid | sid in s.sessions && !SessionOver(env, s.sessions[sid], now)
                       :: Pruned(env, s.sessions[sid], now),
         resumable := map sid | sid in recoveries && now < recoveries[sid].expiresAt :: recoveries[sid],
         buckets := RateLimit.Evict(Limits(env.cfg), s.buckets, now)),
      Ok(PruneAllActions(env, s, draws.sessionOrder, draws, now)
         + OverActions(env, s, draws.sessionOrder, now)
         + RecoveryActions(recoveries, draws.resumableOrder, now)))
  }

  // ---------------------------------------------------------------- one event

  function ServerStep(env: ServerEnv, s: Server, event: ServerEvent, now: Time, draws: ServerDraws): ServerOutcome
    requires env.cfg.rateRefillInterval > 0
  {
    match event
    case TunnelFrame(from, frame) => HandleTunnel(env, s, from, frame, now, draws)
    case ServerDatagram(sid, conv, payload) => HandleUpstream(env, s, sid, conv, payload, now)
    case CloseConversation(session, conv) =>
      if session.None? then Refuse(s, UnknownSession) else HandleClose(s, session.value, conv)
    case TimeAdvanced(at) => Expire(env, s, at, draws)
    case ClientOnly => Refuse(s, InvalidRole)
  }

  // ---------------------------------------------------------------- runs

  datatype Arrival = Arrival(event: ServerEvent, now: Time, draws: ServerDraws)

  /** The server after any events. */
  function ServerRun(env: ServerEnv, s: Server, inputs: seq<Arrival>): Server
    requires env.cfg.rateRefillInterval > 0
    decreases |inputs|
  {
    if inputs == [] then s
    else ServerRun(env, ServerStep(env, s, inputs[0].event, inputs[0].now, inputs[0].draws).server, inputs[1..])
  }
}
