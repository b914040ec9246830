/** One run, step by step: a datagram goes through, the client reconnects, the
    network loses the record that would bind the resumed conversation again, and
    the server's next credential refresh finds it without a handle. */
module TunnelExample {
  import opened Base
  import opened Protocol
  import opened Messages
  import opened ReplaySpec
  import opened Sessions
  import opened Tunnel
  import C = ClientSpec
  import S = ServerSpec
  import RateLimit

  /** The hellos of one handshake: a server that requires a cookie asks for a second. */
  function Tries(env: Env): nat {
    if env.server.cfg.requireHandshakeCookie then 2 else 1
  }

  /** Matching suites, and room for two handshakes and two conversations. */
  ghost predicate Example(env: Env) {
    && ValidEnv(env)
    && env.client.cfg.suite == env.server.cfg.suite
    && env.server.cfg.rateLimitBurst >= 2 * Tries(env) && env.server.cfg.maxConversations >= 2
  }

  // ---------------------------------------------------------------- messages

  /** The hello that the server lets in: with its cookie, if it requires one. */
  function Admissible(env: Env, bare: ClientHello): ClientHello {
    if env.server.cfg.requireHandshakeCookie then bare.(cookie := Some(CookieFor(env.server.secret, bare, 5, 0))) else bare
  }

  function FirstBare(env: Env): ClientHello {
    ClientHello(1, 1, env.client.cfg.suite, None, None)
  }

  function FirstHello(env: Env): ClientHello {
    Admissible(env, FirstBare(env))
  }

  function FirstAnswer(env: Env): ServerHello {
    CreateServerHello(env.client.psk, FirstHello(env), 10, false, 1, 1)
  }

  function Key(env: Env, hello: ClientHello, sh: ServerHello, sid: SessionId): SessionKey {
    SessionKey(env.client.psk, hello, sh, sid)
  }

  function Record(env: Env, key: SessionKey, dir: Direction, number: nat, ftype: FrameType, handle: Option<Handle>, plain: Plain): Frame {
    var header := Header(key.sid, number, 0, ftype, handle);
    RecordMsg(header, Sealed(DirectionKey(key, dir), dir, env.client.cfg.suite, header, plain))
  }

  function FirstKey(env: Env): SessionKey {
    Key(env, FirstHello(env), FirstAnswer(env), 10)
  }

  function Ticket(env: Env): Credential {
    IssueCredential(env.server.secret, 10, 100, 0, Min(0 + Millis(env.server.cfg.resumptionLifetime), U64_MAX), 0)
  }

  function SecondBare(env: Env): ClientHello {
    ClientHello(2, 2, env.client.cfg.suite, None, Some(Ticket(env)))
  }

  function SecondHello(env: Env): ClientHello {
    Admissible(env, SecondBare(env))
  }

  function SecondAnswer(env: Env): ServerHello {
    CreateServerHello(env.client.psk, SecondHello(env), 20, true, 2, 2)
  }

  function SecondKey(env: Env): SessionKey {
    Key(env, SecondHello(env), SecondAnswer(env), 20)
  }

  // ---------------------------------------------------------------- the client, state by state

  function Waiting(hello: ClientHello, attempts: nat, mode: C.SessionState, byPeer: map<LocalPeer, C.Conversation>, byId: map<ConvId, LocalPeer>): C.Client {
    C.Client(mode, Some(C.Handshake(hello, C.AwaitingServerHello, 0, 0, attempts)), None, byPeer, byId, [])
  }

  function Answered(env: Env, c: C.Client, key: SessionKey, source: Option<SessionId>): C.Client
    requires c.handshake.Some?
  {
    var finish := FinishMsg(key.sid, CreateFinish(env.client.psk, key.hello, key.serverHello, key.sid));
    c.(handshake := Some(c.handshake.value.(phase := C.AwaitingServerAck(key.serverHello, finish), attempts := Increment(c.handshake.value.attempts))),
       session := Some(C.ClientSession(key.sid,
                         Sealer(env.client.cfg.suite, ClientToServer, key.sid, DirectionKey(key, ClientToServer), 0),
                         Opener(env.client.cfg.suite, ServerToClient, key.sid, DirectionKey(key, ServerToClient), NewWindow(env.client.cfg.replayWindowSize)),
                         0, key.serverHello.body.resumed, NewTable(), source)))
  }

  function Draws(hello: Option<C.HelloRandom>, convs: seq<Option<ConvId>>, order: seq<LocalPeer>): C.ClientDraws {
    C.ClientDraws(hello, convs, order)
  }

  lemma ClientStarts(env: Env)
    requires Example(env)
    ensures var o := C.ClientStep(env.client, C.NewClient(), C.Start, 0, Draws(Some(C.HelloRandom(1, 1)), [], []));
            && o.client == Waiting(FirstBare(env), 1, C.Handshaking, map[], map[])
            && o.reply == Ok([SendFrame(env.client.serverPeer, HelloMsg(FirstBare(env))), ScheduleTimer(env.client.cfg.handshakeRetryInterval)])
            && o.fates == []
  {
  }

  function Retry(env: Env, bare: ClientHello): Frame {
    RetryMsg(CreateRetry(env.client.psk, env.server.secret, bare, 5, 0))
  }

  /** Asked for a cookie, the client sends its hello again with it. */
  lemma ClientRetries(env: Env, c: C.Client, bare: ClientHello, order: seq<LocalPeer>)
    requires Example(env) && env.server.cfg.requireHandshakeCookie
    requires c == Waiting(bare, 1, c.mode, c.byPeer, c.byId) && (c.mode.Handshaking? || c.mode.Reconnecting?)
    ensures var o := C.ClientStep(env.client, c, C.TunnelFrame(env.client.serverPeer, Retry(env, bare)), 0, Draws(None, [], order));
            && o.client == Waiting(Admissible(env, bare), 2, c.mode, c.byPeer, c.byId)
            && o.reply == Ok([SendFrame(env.client.serverPeer, HelloMsg(Admissible(env, bare))),
                              ScheduleTimer(env.client.cfg.handshakeRetryInterval)])
            && o.fates == []
  {
  }

  /** The server's answer makes the client derive its session. */
  lemma ClientAnswers(env: Env, c: C.Client, key: SessionKey, order: seq<LocalPeer>)
    requires Example(env) && key.psk == env.client.psk && key.sid != 0
    requires c == Waiting(key.hello, Tries(env), c.mode, c.byPeer, c.byId) && (c.mode.Handshaking? || c.mode.Reconnecting?)
    requires key.serverHello == CreateServerHello(key.psk, key.hello, key.sid, key.serverHello.body.resumed,
                                                  key.serverHello.body.serverNonce, key.serverHello.body.salt)
    ensures var o := C.ClientStep(env.client, c, C.TunnelFrame(env.client.serverPeer, ServerHelloMsg(key.sid, key.serverHello)), 0,
                                  Draws(None, [], order));
            && o.client == Answered(env, c, key, if key.hello.resumption.Some? then C.TicketSource(c.byPeer, order, key.hello.resumption.value) else None)
            && o.reply == Ok([SendFrame(env.client.serverPeer, FinishMsg(key.sid, CreateFinish(key.psk, key.hello, key.serverHello, key.sid))),
                              ScheduleTimer(env.client.cfg.handshakeRetryInterval)])
            && o.fates == []
  {
  }

  function Below(n: nat): set<nat> {
    if n == 0 then {} else Below(n - 1) + {n - 1}
  }

  /** The window after the first numbers have arrived in order. */
  function Seen(env: Env, n: nat): Window {
    Window(env.client.cfg.replayWindowSize, if n == 0 then None else Some(n - 1), Below(n))
  }

  lemma SeenNext(env: Env, n: nat)
    requires env.client.cfg.replayWindowSize > 0
    ensures Accept(Seen(env, n), n) == Accepted(Seen(env, n + 1))
  {
  }

  /** A ready client in the session of `key`, with so many records sealed and opened. */
  function Ready(env: Env, key: SessionKey, source: Option<SessionId>, sealed: nat, opens: nat, handles: HandleTable,
                 byPeer: map<LocalPeer, C.Conversation>, byId: map<ConvId, LocalPeer>): C.Client {
    C.Client(C.Ready, None,
      Some(C.ClientSession(key.sid,
             Sealer(env.client.cfg.suite, ClientToServer, key.sid, DirectionKey(key, ClientToServer), sealed),
             Opener(env.client.cfg.suite, ServerToClient, key.sid, DirectionKey(key, ServerToClient), Seen(env, opens)),
             0, key.serverHello.body.resumed, handles, source)),
      byPeer, byId, [])
  }

  function AckRecord(env: Env, key: SessionKey): Frame {
    Record(env, key, ServerToClient, 0, HandshakeAck, None, Payload([]))
  }

  function OneHandle(): HandleTable {
    HandleTable(map[1 := 50], map[50 := 1], 2)
  }

  function OnePeer(ticket: Option<C.Ticket>): map<LocalPeer, C.Conversation> {
    map[7 := C.Conversation(50, 0, ticket)]
  }

  lemma AckOpens(env: Env, key: SessionKey)
    requires Example(env)
    ensures Open(Opener(env.client.cfg.suite, ServerToClient, key.sid, DirectionKey(key, ServerToClient), Seen(env, 0)), AckRecord(env, key))
            == OpenOk(Opener(env.client.cfg.suite, ServerToClient, key.sid, DirectionKey(key, ServerToClient), Seen(env, 1)), Payload([]))
  {
    SeenNext(env, 0);
  }

  lemma ClientReady(env: Env)
    requires Example(env)
    ensures var c := Answered(env, Waiting(FirstHello(env), Tries(env), C.Handshaking, map[], map[]), FirstKey(env), None);
            var o := C.ClientStep(env.client, c, C.TunnelFrame(env.client.serverPeer, AckRecord(env, FirstKey(env))), 0, Draws(None, [], []));
            && o.client == Ready(env, FirstKey(env), None, 0, 1, NewTable(), map[], map[])
            && o.reply.Ok? && SentAtoms(o.reply.actions) == {}
  {
    AckOpens(env, FirstKey(env));
  }

  function First(): C.Datagram {
    C.Datagram(7, [], 0)
  }

  lemma ClientSendsFirst(env: Env)
    requires Example(env)
    ensures var c := Ready(env, FirstKey(env), None, 0, 1, NewTable(), map[], map[]);
            var o := C.ClientStep(env.client, c, C.ClientDatagram(First()), 0, Draws(None, [Some(50)], []));
            var data := Record(env, FirstKey(env), ClientToServer, 0, Data, Some(1), Payload([]));
            && o.client == Ready(env, FirstKey(env), None, 1, 1, OneHandle(), OnePeer(None), map[50 := 7])
            && o.reply == Ok([ConversationOpened(Some(10), 50), SendFrame(env.client.serverPeer, data)])
  {
  }

  lemma ClientStoresTicket(env: Env)
    requires Example(env)
    ensures var c := Ready(env, FirstKey(env), None, 1, 1, OneHandle(), OnePeer(None), map[50 := 7]);
            var credential := Record(env, FirstKey(env), ServerToClient, 1, ResumptionCredential, Some(1), CredentialBytes(Ticket(env)));
            var o := C.ClientStep(env.client, c, C.TunnelFrame(env.client.serverPeer, credential), 0, Draws(None, [], [7]));
            && o.client == Ready(env, FirstKey(env), None, 1, 2, OneHandle(), OnePeer(Some(C.Ticket(10, Ticket(env)))), map[50 := 7])
            && o.reply == Ok([])
  {
    SeenNext(env, 1);
  }

  lemma ClientReconnects(env: Env)
    requires Example(env)
    ensures var ticket := Some(C.Ticket(10, Ticket(env)));
            var c := Ready(env, FirstKey(env), None, 1, 2, OneHandle(), OnePeer(ticket), map[50 := 7]);
            var o := C.ClientStep(env.client, c, C.Reconnect, 0, Draws(Some(C.HelloRandom(2, 2)), [], [7]));
            && o.client == Waiting(SecondBare(env), 1, C.Reconnecting, OnePeer(ticket), map[50 := 7])
            && o.reply == Ok([SessionClosed(env.client.serverPeer, 10), SendFrame(env.client.serverPeer, HelloMsg(SecondBare(env))),
                              ScheduleTimer(env.client.cfg.handshakeRetryInterval)])
  {
    var byPeer := OnePeer(Some(C.Ticket(10, Ticket(env))));
    assert C.FirstTicket(byPeer, [7]) == byPeer[7].ticket;
  }

  /** The record that would bind the resumed conversation again. */
  function Announcement(env: Env): Frame {
    Record(env, SecondKey(env), ClientToServer, 0, ResumeConversation, Some(1), CredentialBytes(Ticket(env)))
  }

  lemma ClientRebinds(env: Env)
    requires Example(env)
    ensures var ticket := Some(C.Ticket(10, Ticket(env)));
            var c := Answered(env, Waiting(SecondHello(env), Tries(env), C.Reconnecting, OnePeer(ticket), map[50 := 7]), SecondKey(env), Some(10));
            var o := C.ClientStep(env.client, c, C.TunnelFrame(env.client.serverPeer, AckRecord(env, SecondKey(env))), 0, Draws(None, [], [7]));
            && o.client == Ready(env, SecondKey(env), Some(10), 1, 1, OneHandle(), OnePeer(ticket), map[50 := 7])
            && o.reply.Ok? && |o.reply.actions| > 1 && o.reply.actions[1] == SendFrame(env.client.serverPeer, Announcement(env))
  {
    AckOpens(env, SecondKey(env));
    var byPeer := OnePeer(Some(C.Ticket(10, Ticket(env))));
    var s := Ready(env, SecondKey(env), Some(10), 0, 1, NewTable(), byPeer, map[50 := 7]).session.value;
    var s1 := s.(handles := OneHandle(), sealer := s.sealer.(next := 1));
    assert C.Rebind(env.client, s1, byPeer, [7][1..]) == C.ReboundOk(s1, []);
    assert C.Rebind(env.client, s, byPeer, [7]) == C.ReboundOk(s1, [SendFrame(env.client.serverPeer, Announcement(env))]);
  }

  lemma ClientSendsSecond(env: Env)
    requires Example(env)
    ensures var ticket := Some(C.Ticket(10, Ticket(env)));
            var c := Ready(env, SecondKey(env), Some(10), 1, 1, OneHandle(), OnePeer(ticket), map[50 := 7]);
            var o := C.ClientStep(env.client, c, C.ClientDatagram(C.Datagram(7, [], 1)), 0, Draws(None, [], [7]));
            var data := Record(env, SecondKey(env), ClientToServer, 1, Data, Some(1), Payload([]));
            o.reply == Ok([SendFrame(env.client.serverPeer, data)])
  {
  }

  // ---------------------------------------------------------------- the server, state by state

  function SDraws(sids: seq<SessionId>, hello: Option<S.ServerRandom>, conv: Option<ConvId>, refresh: seq<ConvId>,
                  pending: seq<SessionId>): S.ServerDraws {
    S.ServerDraws(sids, hello, conv, [], refresh, pending, [], map[], [])
  }

  function Buckets(env: Env, spent: nat): map<PeerId, RateLimit.Bucket>
    requires spent <= env.server.cfg.rateLimitBurst
  {
    map[5 := RateLimit.Bucket(env.server.cfg.rateLimitBurst - spent, 0)]
  }

  function Pends(env: Env, key: SessionKey, from: Option<SessionId>): S.Pending {
    S.Pending(5, 0, key.hello, key.serverHello, from)
  }

  /** A session of the server, with so many records sealed. */
  function Serves(env: Env, key: SessionKey, from: Option<SessionId>, sealed: nat, window: Window,
                  conversations: map<ConvId, Time>, handles: HandleTable, lease: Option<S.Lease>): S.ServerSession {
    S.ServerSession(5,
      Sealer(env.server.cfg.suite, ServerToClient, key.sid, DirectionKey(key, ServerToClient), sealed),
      Opener(env.server.cfg.suite, ClientToServer, key.sid, DirectionKey(key, ClientToServer), window),
      AckRecord(env, key), FinishMsg(key.sid, CreateFinish(key.psk, key.hello, key.serverHello, key.sid)),
      conversations, handles, from, lease, 0, env.server.cfg.sessionIdleTimeout)
  }

  function Lease(env: Env): Option<S.Lease> {
    Some(S.Lease(Ticket(env), env.server.cfg.resumptionLifetime))
  }

  function Table100(): HandleTable {
    HandleTable(map[1 := 100], map[100 := 1], 1)
  }

  /** The server while the first session is up. */
  function FirstUp(env: Env, spent: nat, sealed: nat, window: Window, conversations: map<ConvId, Time>, handles: HandleTable,
                   lease: Option<S.Lease>): S.Server
    requires spent <= env.server.cfg.rateLimitBurst
  {
    S.Server(Some(0), map[], map[10 := Serves(env, FirstKey(env), None, sealed, window, conversations, handles, lease)], map[], Buckets(env, spent))
  }

  function SWindow(env: Env, n: nat): Window {
    Window(env.server.cfg.replayWindowSize, if n == 0 then None else Some(n - 1), Below(n))
  }

  /** The server before it hears the hello it lets in. */
  function Server0(env: Env): S.Server
    requires Example(env)
  {
    if env.server.cfg.requireHandshakeCookie then S.Server(Some(0), map[], map[], map[], Buckets(env, 1)) else S.NewServer()
  }

  /** A hello without a cookie is asked for one. */
  lemma ServerAsks(env: Env, s: S.Server, bare: ClientHello, draws: S.ServerDraws, spent: nat)
    requires Example(env) && env.server.cfg.requireHandshakeCookie && bare.cookie.None? && bare.suite == env.server.cfg.suite
    requires spent < env.server.cfg.rateLimitBurst
    requires if spent == 0 then s == S.NewServer() else s.clockOrigin == Some(0) && s.buckets == Buckets(env, spent)
    ensures var o := S.ServerStep(env.server, s, S.TunnelFrame(5, HelloMsg(bare)), 0, draws);
            && o.server == s.(clockOrigin := Some(0), buckets := Buckets(env, spent + 1))
            && o.reply == Ok([SendFrame(5, Retry(env, bare))])
  {
    assert RateLimit.TryAttempt(S.Limits(env.server.cfg), s.buckets, 5, 0) == RateLimit.Attempt(Buckets(env, spent + 1), true);
  }

  /** A hello that the server lets in costs one token. */
  lemma ServerLets(env: Env, s: S.Server, bare: ClientHello, draws: S.ServerDraws, spent: nat)
    requires Example(env) && bare.cookie.None? && bare.suite == env.server.cfg.suite
    requires spent < env.server.cfg.rateLimitBurst
    requires if spent == 0 then s == S.NewServer() && Tries(env) == 1 else s.clockOrigin == Some(0) && s.buckets == Buckets(env, spent)
    ensures S.ServerStep(env.server, s, S.TunnelFrame(5, HelloMsg(Admissible(env, bare))), 0, draws)
         == S.AdmitHello(env.server, s.(buckets := Buckets(env, spent + 1)), 5, Admissible(env, bare), 0, draws)
  {
    assert RateLimit.TryAttempt(S.Limits(env.server.cfg), s.buckets, 5, 0) == RateLimit.Attempt(Buckets(env, spent + 1), true);
  }

  lemma ServerHears(env: Env)
    requires Example(env)
    ensures var o := S.ServerStep(env.server, Server0(env), S.TunnelFrame(5, HelloMsg(FirstHello(env))), 0,
                                  SDraws([10], Some(S.ServerRandom(1, 1)), None, [], []));
            && o.server == S.Server(Some(0), map[10 := Pends(env, FirstKey(env), None)], map[], map[], Buckets(env, Tries(env)))
            && o.reply == Ok([SendFrame(5, ServerHelloMsg(10, FirstAnswer(env))), ScheduleTimer(env.server.cfg.handshakeTimeout)])
  {
    var draws := SDraws([10], Some(S.ServerRandom(1, 1)), None, [], []);
    ServerLets(env, Server0(env), FirstBare(env), draws, Tries(env) - 1);
    FirstAdmitted(env, Server0(env).(buckets := Buckets(env, Tries(env))));
  }

  lemma FirstAdmitted(env: Env, s: S.Server)
    requires Example(env) && s == Server0(env).(buckets := Buckets(env, Tries(env)))
    ensures var o := S.AdmitHello(env.server, s, 5, FirstHello(env), 0, SDraws([10], Some(S.ServerRandom(1, 1)), None, [], []));
            && o.server == S.Server(Some(0), map[10 := Pends(env, FirstKey(env), None)], map[], map[], Buckets(env, Tries(env)))
            && o.reply == Ok([SendFrame(5, ServerHelloMsg(10, FirstAnswer(env))), ScheduleTimer(env.server.cfg.handshakeTimeout)])
  {
    assert S.FirstFresh(s, [10]) == Some(10);
    assert S.PendingOf(s.pending, 5) == {};
    assert s.pending[10 := Pends(env, FirstKey(env), None)] == map[10 := Pends(env, FirstKey(env), None)];
  }

  lemma ServerAccepts(env: Env)
    requires Example(env)
    ensures var s := S.Server(Some(0), map[10 := Pends(env, FirstKey(env), None)], map[], map[], Buckets(env, Tries(env)));
            var finish := CreateFinish(env.client.psk, FirstHello(env), FirstAnswer(env), 10);
            var o := S.ServerStep(env.server, s, S.TunnelFrame(5, FinishMsg(10, finish)), 0, SDraws([], None, None, [], [10]));
            && o.server == FirstUp(env, Tries(env), 1, SWindow(env, 0), map[], NewTable(), None)
            && o.reply == Ok(S.FinishActions(env.server, Pends(env, FirstKey(env), None), 10, 5))
            && o.reply.actions[0] == SendFrame(5, AckRecord(env, FirstKey(env)))
  {
    var s := S.Server(Some(0), map[10 := Pends(env, FirstKey(env), None)], map[], map[], Buckets(env, Tries(env)));
    assert s.pending - {10} == map[];
  }

  function FirstData(env: Env): Frame {
    Record(env, FirstKey(env), ClientToServer, 0, Data, Some(1), Payload([]))
  }

  function CredentialRecord(env: Env): Frame {
    Record(env, FirstKey(env), ServerToClient, 1, ResumptionCredential, Some(1), CredentialBytes(Ticket(env)))
  }

  /** The refresh that goes with the first datagram. */
  lemma FirstRefresh(env: Env, session: S.ServerSession)
    requires Example(env)
    requires session == Serves(env, FirstKey(env), None, 1, SWindow(env, 1), map[100 := 0], Table100(), None)
    ensures S.Renew(env.server, session, 10, 1, 100, true, 0, 0, SDraws([], None, Some(100), [100], []))
            == S.RefreshedOk(session.(sealer := session.sealer.(next := 2), lease := Lease(env)),
                             [SendFrame(5, CredentialRecord(env))])
  {
    var leased := session.(lease := Lease(env));
    var s1 := leased.(sealer := leased.sealer.(next := 2));
    var ms := Min(0 + Millis(env.server.cfg.resumptionLifetime), U64_MAX);
    assert S.RefreshAll(env.server, s1, 10, [100][1..], 0, ms, []) == S.RefreshedOk(s1, []);
  }

  lemma FirstOffered(env: Env)
    requires Example(env)
    ensures var s0 := Serves(env, FirstKey(env), None, 1, SWindow(env, 0), map[], NewTable(), None);
            S.OfferRecord(env.server, s0, 10, FirstData(env), 0, 0, SDraws([], None, Some(100), [100], []))
            == S.SessionReply(Serves(env, FirstKey(env), None, 2, SWindow(env, 1), map[100 := 0], Table100(), Lease(env)),
                              Ok([ConversationOpened(Some(10), 100), SendFrame(5, CredentialRecord(env)),
                                  DeliverToUpstream(10, 100, []), ScheduleTimer(env.server.cfg.sessionIdleTimeout)]))
  {
    hide S.Renew, Ticket, CreateServerHello;
    var s0 := Serves(env, FirstKey(env), None, 1, SWindow(env, 0), map[], NewTable(), None);
    assert Accept(SWindow(env, 0), 0) == Accepted(SWindow(env, 1));
    assert Open(s0.opener, FirstData(env)) == OpenOk(s0.opener.(window := SWindow(env, 1)), Payload([]));
    var t := S.Touch(env.server, s0.(opener := s0.opener.(window := SWindow(env, 1))), 0);
    var routed := Serves(env, FirstKey(env), None, 1, SWindow(env, 1), map[100 := 0], Table100(), None);
    assert S.Route(env.server, t, 1, 0, Some(100)) == S.RoutedOk(routed, 100, true);
    FirstRefresh(env, routed);
    var first, sent := ConversationOpened(Some(10), 100), SendFrame(5, CredentialRecord(env));
    var out, timer := DeliverToUpstream(10, 100, []), ScheduleTimer(env.server.cfg.sessionIdleTimeout);
    assert [first] + [sent] + [out, timer] == [first, sent, out, timer];
  }

  lemma ServerOpens(env: Env)
    requires Example(env)
    ensures var s := FirstUp(env, Tries(env), 1, SWindow(env, 0), map[], NewTable(), None);
            var o := S.ServerStep(env.server, s, S.TunnelFrame(5, FirstData(env)), 0, SDraws([], None, Some(100), [100], []));
            && o.server == FirstUp(env, Tries(env), 2, SWindow(env, 1), map[100 := 0], Table100(), Lease(env))
            && o.reply == Ok([ConversationOpened(Some(10), 100), SendFrame(5, CredentialRecord(env)),
                              DeliverToUpstream(10, 100, []), ScheduleTimer(env.server.cfg.sessionIdleTimeout)])
  {
    hide S.OfferRecord, Ticket, CreateServerHello;
    FirstOffered(env);
  }

  function Resuming(env: Env): S.Server
    requires env.server.cfg.rateLimitBurst >= 2 * Tries(env)
  {
    FirstUp(env, 2 * Tries(env), 2, SWindow(env, 1), map[100 := 0], Table100(), Lease(env)).(pending := map[20 := Pends(env, SecondKey(env), Some(10))])
  }

  lemma ServerHearsAgain(env: Env)
    requires Example(env)
    ensures var s := FirstUp(env, 2 * Tries(env) - 1, 2, SWindow(env, 1), map[100 := 0], Table100(), Lease(env));
            var o := S.ServerStep(env.server, s, S.TunnelFrame(5, HelloMsg(SecondHello(env))), 0,
                                  SDraws([20], Some(S.ServerRandom(2, 2)), None, [], []));
            && o.server == Resuming(env)
            && o.reply == Ok([SendFrame(5, ServerHelloMsg(20, SecondAnswer(env))), ScheduleTimer(env.server.cfg.handshakeTimeout)])
  {
    hide CreateServerHello, SWindow, S.AdmitHello;
    var s := FirstUp(env, 2 * Tries(env) - 1, 2, SWindow(env, 1), map[100 := 0], Table100(), Lease(env));
    var draws := SDraws([20], Some(S.ServerRandom(2, 2)), None, [], []);
    ServerLets(env, s, SecondBare(env), draws, 2 * Tries(env) - 1);
    var s1 := s.(buckets := Buckets(env, 2 * Tries(env)));
    assert S.FirstFresh(s1, [20]) == Some(20);
    assert S.ResumeFrom(env.server, s1, SecondHello(env), 0) == Some(10);
    Admitted(env, s1);
  }

  lemma Admitted(env: Env, s1: S.Server)
    requires Example(env) && s1 == FirstUp(env, 2 * Tries(env), 2, SWindow(env, 1), map[100 := 0], Table100(), Lease(env))
    requires S.FirstFresh(s1, [20]) == Some(20) && S.ResumeFrom(env.server, s1, SecondHello(env), 0) == Some(10)
    ensures var o := S.AdmitHello(env.server, s1, 5, SecondHello(env), 0, SDraws([20], Some(S.ServerRandom(2, 2)), None, [], []));
            && o.server == Resuming(env)
            && o.reply == Ok([SendFrame(5, ServerHelloMsg(20, SecondAnswer(env))), ScheduleTimer(env.server.cfg.handshakeTimeout)])
  {
    assert S.PendingOf(s1.pending, 5) == {};
    assert s1.pending[20 := Pends(env, SecondKey(env), Some(10))] == map[20 := Pends(env, SecondKey(env), Some(10))];
  }

  /** The server after the resumption: the conversation has moved, unbound. */
  function SecondUp(env: Env): S.Server
    requires env.server.cfg.rateLimitBurst >= 2 * Tries(env)
  {
    S.Server(Some(0), map[], map[20 := Serves(env, SecondKey(env), Some(10), 1, SWindow(env, 0), map[100 := 0], NewTable(), Lease(env))],
             map[], Buckets(env, 2 * Tries(env)))
  }

  lemma ServerResumes(env: Env)
    requires Example(env)
    ensures var finish := CreateFinish(env.client.psk, SecondHello(env), SecondAnswer(env), 20);
            var o := S.ServerStep(env.server, Resuming(env), S.TunnelFrame(5, FinishMsg(20, finish)), 0, SDraws([], None, None, [], [20]));
            && o.server == SecondUp(env)
            && o.reply == Ok(S.FinishActions(env.server, Pends(env, SecondKey(env), Some(10)), 20, 5))
            && o.reply.actions[0] == SendFrame(5, AckRecord(env, SecondKey(env)))
  {
    var s := Resuming(env);
    assert s.pending - {20} == map[];
    assert S.Without(s, Some(10)).sessions == map[];
    var inherited := S.Inherited(s, Some(10));
    assert 100 in inherited;
    assert inherited != map[];
    var finish := CreateFinish(env.client.psk, SecondHello(env), SecondAnswer(env), 20);
    assert S.SessionFor(env.server, s, 20, finish, 0) == SecondUp(env).sessions[20];
  }

  lemma ServerPanics(env: Env, late: Time)
    requires Example(env) && late >= env.server.cfg.resumptionLifetime
    ensures var data := Record(env, SecondKey(env), ClientToServer, 1, Data, Some(1), Payload([]));
            S.ServerStep(env.server, SecondUp(env), S.TunnelFrame(5, data), late, SDraws([], None, Some(101), [100, 101], [])).reply == Panic
  {
    var s0 := SecondUp(env).sessions[20];
    var data := Record(env, SecondKey(env), ClientToServer, 1, Data, Some(1), Payload([]));
    assert Open(s0.opener, data).OpenOk?;
    var t := S.Touch(env.server, s0.(opener := Open(s0.opener, data).opener), late);
    var r := S.Route(env.server, t, 1, late, Some(101));
    assert r.RoutedOk? && r.session.handles.byId == map[101 := 1];
    assert S.RefreshDue(env.server, r.session, late);
  }
}
