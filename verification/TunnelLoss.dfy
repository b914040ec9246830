/** The example as a run of the tunnel. */
module TunnelLoss {
  import opened Base
  import opened Protocol
  import opened Messages
  import opened Sessions
  import opened Tunnel
  import opened TunnelExample
  import C = ClientSpec
  import CI = ClientInvariants
  import S = ServerSpec
  import SE = ServerEffects
  import SR = ServerResumption
  import TT = TunnelTheorems

  /** Every random value that may have been drawn so far. */
  datatype Used = Used(nonces: set<nat>, sids: set<SessionId>, opening: set<ConvId>, convs: set<ConvId>, serials: set<nat>)

  /** No server step of the run has been handed this record. */
  ghost predicate Withheld(steps: seq<Step>, body: Body) {
    forall i :: 0 <= i < |steps| && steps[i].ServerStep? && steps[i].sevent.TunnelFrame? && steps[i].sevent.frame.RecordMsg? ==>
      steps[i].sevent.frame.body != body
  }

  /** The run so far leads to these states, and the announcement has not been
      handed to the server. */
  ghost predicate Stands(env: Env, steps: seq<Step>, c: C.Client, s: S.Server, known: set<Atom>, used: Used)
    requires ValidEnv(env)
  {
    && ValidRun(env, steps) && Withheld(steps, Announcement(env).body)
    && var sys := Run(env, steps);
       && sys.client == c && sys.server == s && sys.serverUp
       && known <= sys.history.known && sys.history.nonces <= used.nonces && sys.history.sids <= used.sids
       && sys.history.openedBy.Keys <= used.opening && sys.history.peerOf.Keys <= used.convs && sys.history.serials <= used.serials
  }

  lemma OneMore(env: Env, steps: seq<Step>, step: Step)
    requires ValidEnv(env) && ValidRun(env, steps) && Enabled(env, Run(env, steps), step)
    ensures ValidRun(env, steps + [step]) && Run(env, steps + [step]) == Next(env, Run(env, steps), step)
  {
    assert (steps + [step])[..|steps|] == steps;
  }

  lemma ClientMoves(env: Env, steps: seq<Step>, c: C.Client, s: S.Server, known: set<Atom>, used: Used,
                    event: C.ClientEvent, draws: C.ClientDraws, used1: Used)
    requires ValidEnv(env) && Stands(env, steps, c, s, known, used)
    requires event.TunnelFrame? ==> Deliverable(event.frame, known)
    requires CI.FreshDraws(draws.convs, used.convs) && Enumerates(draws.order, c.byPeer.Keys)
    requires draws.hello.Some? ==> draws.hello.value.clientNonce !in used.nonces
    requires event.ClientDatagram? ==> event.datagram.serial !in used.serials
    requires var o := C.ClientStep(env.client, c, event, 0, draws);
             && used.nonces <= used1.nonces && used.convs <= used1.convs && used.serials <= used1.serials
             && used1.sids == used.sids && used1.opening == used.opening
             && (o.client.handshake.Some? ==> o.client.handshake.value.hello.clientNonce in used1.nonces)
             && o.client.byId.Keys <= used1.convs
             && (event.ClientDatagram? ==> event.datagram.serial in used1.serials)
    ensures var o := C.ClientStep(env.client, c, event, 0, draws);
            Stands(env, steps + [ClientStep(event, 0, draws)], o.client, s, known + SentAtoms(ActionsOf(o.reply)), used1)
  {
    OneMore(env, steps, ClientStep(event, 0, draws));
  }

  lemma ServerMoves(env: Env, steps: seq<Step>, c: C.Client, s: S.Server, known: set<Atom>, used: Used,
                    event: S.ServerEvent, now: Time, draws: S.ServerDraws, used1: Used)
    requires ValidEnv(env) && Stands(env, steps, c, s, known, used)
    requires event.TunnelFrame? ==> Deliverable(event.frame, known)
    requires draws.conv.Some? ==> draws.conv.value !in used.opening
    requires forall sid :: sid in draws.sids ==> sid !in used.sids
    requires Enumerates(draws.pendingOrder, s.pending.Keys) && !event.TimeAdvanced? && S.RefreshesAll(s, event, draws)
    requires event.TunnelFrame? && event.frame.RecordMsg? ==> event.frame.body != Announcement(env).body
    requires var o := S.ServerStep(env.server, s, event, now, draws);
             && !o.reply.Panic?
             && used.sids <= used1.sids && used.opening <= used1.opening
             && used1.nonces == used.nonces && used1.convs == used.convs && used1.serials == used.serials
             && o.server.pending.Keys <= used1.sids && (draws.conv.Some? ==> draws.conv.value in used1.opening)
    ensures var o := S.ServerStep(env.server, s, event, now, draws);
            Stands(env, steps + [ServerStep(event, now, draws)], c, o.server, known + SentAtoms(ActionsOf(o.reply)), used1)
  {
    OneMore(env, steps, ServerStep(event, now, draws));
  }

  lemma Sends(actions: seq<Action>, i: nat)
    requires i < |actions| && actions[i].SendFrame?
    ensures Atoms(actions[i].frame) <= SentAtoms(actions)
  {
    forall x | x in Atoms(actions[i].frame)
      ensures x in SentAtoms(actions)
    {
      assert actions[i] in actions;
    }
  }

  lemma Deliver(frame: Frame, known: set<Atom>)
    requires Atoms(frame) <= known
    ensures Deliverable(frame, known)
  {
  }

  // ---------------------------------------------------------------- the first session

  function Client1(env: Env): C.Client {
    Waiting(FirstHello(env), Tries(env), C.Handshaking, map[], map[])
  }

  function Server1(env: Env): S.Server
    requires env.server.cfg.rateLimitBurst >= 2 * Tries(env)
  {
    S.Server(Some(0), map[10 := Pends(env, FirstKey(env), None)], map[], map[], Buckets(env, Tries(env)))
  }

  /** Where a cookie is required: the server asks for it and the client returns it. */
  lemma CookieExchange(env: Env, before: seq<Step>, had: set<Atom>, c: C.Client, s: S.Server, bare: ClientHello,
                       order: seq<LocalPeer>, spent: nat, used: Used)
    returns (steps: seq<Step>, known: set<Atom>)
    requires Example(env) && env.server.cfg.requireHandshakeCookie && Stands(env, before, c, s, had, used)
    requires c == Waiting(bare, 1, c.mode, c.byPeer, c.byId) && (c.mode.Handshaking? || c.mode.Reconnecting?)
    requires bare.cookie.None? && bare.suite == env.server.cfg.suite && bare.clientNonce in used.nonces && c.byId.Keys <= used.convs
    requires Atoms(HelloMsg(bare)) <= had && Enumerates(order, c.byPeer.Keys) && s.pending == map[]
    requires spent < env.server.cfg.rateLimitBurst
    requires if spent == 0 then s == S.NewServer() else s.clockOrigin == Some(0) && s.buckets == Buckets(env, spent)
    ensures Stands(env, steps, Waiting(Admissible(env, bare), 2, c.mode, c.byPeer, c.byId),
                   s.(clockOrigin := Some(0), buckets := Buckets(env, spent + 1)), known, used)
    ensures had <= known && Atoms(HelloMsg(Admissible(env, bare))) <= known
  {
    hide Stands;
    var asked, sdraws := S.TunnelFrame(5, HelloMsg(bare)), SDraws([], None, None, [], []);
    Deliver(asked.frame, had);
    ServerAsks(env, s, bare, sdraws, spent);
    var o := S.ServerStep(env.server, s, asked, 0, sdraws);
    ServerMoves(env, before, c, s, had, used, asked, 0, sdraws, used);
    Sends(o.reply.actions, 0);
    steps, known := before + [ServerStep(asked, 0, sdraws)], had + SentAtoms(o.reply.actions);
    var event, draws := C.TunnelFrame(env.client.serverPeer, Retry(env, bare)), Draws(None, [], order);
    Deliver(event.frame, known);
    ClientRetries(env, c, bare, order);
    var r := C.ClientStep(env.client, c, event, 0, draws);
    ClientMoves(env, steps, c, o.server, known, used, event, draws, used);
    Sends(r.reply.actions, 0);
    steps, known := steps + [ClientStep(event, 0, draws)], known + SentAtoms(r.reply.actions);
  }

  lemma Step1(env: Env) returns (steps: seq<Step>, known: set<Atom>)
    requires Example(env)
    ensures Stands(env, steps, Client1(env), Server0(env), known, Used({1}, {}, {}, {}, {}))
    ensures Atoms(HelloMsg(FirstHello(env))) <= known
  {
    steps, known := [], {};
    assert Stands(env, steps, C.NewClient(), S.NewServer(), known, Used({}, {}, {}, {}, {}));
    var draws := Draws(Some(C.HelloRandom(1, 1)), [], []);
    ClientStarts(env);
    ClientMoves(env, steps, C.NewClient(), S.NewServer(), known, Used({}, {}, {}, {}, {}), C.Start, draws, Used({1}, {}, {}, {}, {}));
    known := known + SentAtoms(ActionsOf(C.ClientStep(env.client, C.NewClient(), C.Start, 0, draws).reply));
    steps := steps + [ClientStep(C.Start, 0, draws)];
    steps, known := Step1Cookie(env, steps, known);
  }

  lemma Step1Cookie(env: Env, before: seq<Step>, had: set<Atom>) returns (steps: seq<Step>, known: set<Atom>)
    requires Example(env)
    requires Stands(env, before, Waiting(FirstBare(env), 1, C.Handshaking, map[], map[]), S.NewServer(), had, Used({1}, {}, {}, {}, {}))
    ensures Stands(env, steps, Client1(env), Server0(env), known, Used({1}, {}, {}, {}, {}))
    ensures Atoms(HelloMsg(FirstHello(env))) <= known
  {
    hide Stands;
    steps, known := before, had;
    if env.server.cfg.requireHandshakeCookie {
      var c := Waiting(FirstBare(env), 1, C.Handshaking, map[], map[]);
      steps, known := CookieExchange(env, before, had, c, S.NewServer(), FirstBare(env), [], 0, Used({1}, {}, {}, {}, {}));
    }
  }

  lemma Step2(env: Env) returns (steps: seq<Step>, known: set<Atom>)
    requires Example(env)
    ensures Stands(env, steps, Client1(env), Server1(env), known, Used({1}, {10}, {}, {}, {}))
    ensures Atoms(ServerHelloMsg(10, FirstAnswer(env))) <= known
  {
    hide Stands;
    steps, known := Step1(env);
    var draws := SDraws([10], Some(S.ServerRandom(1, 1)), None, [], []);
    var event := S.TunnelFrame(5, HelloMsg(FirstHello(env)));
    ServerHears(env);
    Deliver(event.frame, known);
    var o := S.ServerStep(env.server, Server0(env), event, 0, draws);
    ServerMoves(env, steps, Client1(env), Server0(env), known, Used({1}, {}, {}, {}, {}), event, 0, draws, Used({1}, {10}, {}, {}, {}));
    Sends(o.reply.actions, 0);
    steps, known := steps + [ServerStep(event, 0, draws)], known + SentAtoms(o.reply.actions);
  }

  function FirstFinish(env: Env): Frame {
    FinishMsg(10, CreateFinish(env.client.psk, FirstHello(env), FirstAnswer(env), 10))
  }

  lemma Step3(env: Env) returns (steps: seq<Step>, known: set<Atom>)
    requires Example(env)
    ensures Stands(env, steps, Answered(env, Client1(env), FirstKey(env), None), Server1(env), known, Used({1}, {10}, {}, {}, {}))
    ensures Atoms(FirstFinish(env)) <= known
  {
    hide Stands;
    steps, known := Step2(env);
    var event := C.TunnelFrame(env.client.serverPeer, ServerHelloMsg(10, FirstAnswer(env)));
    Deliver(event.frame, known);
    ClientAnswers(env, Client1(env), FirstKey(env), []);
    var o := C.ClientStep(env.client, Client1(env), event, 0, Draws(None, [], []));
    ClientMoves(env, steps, Client1(env), Server1(env), known, Used({1}, {10}, {}, {}, {}), event, Draws(None, [], []), Used({1}, {10}, {}, {}, {}));
    Sends(o.reply.actions, 0);
    steps, known := steps + [ClientStep(event, 0, Draws(None, [], []))], known + SentAtoms(o.reply.actions);
  }

  function Server2(env: Env): S.Server
    requires env.server.cfg.rateLimitBurst >= 2 * Tries(env)
  {
    FirstUp(env, Tries(env), 1, SWindow(env, 0), map[], NewTable(), None)
  }

  lemma Step4(env: Env) returns (steps: seq<Step>, known: set<Atom>)
    requires Example(env)
    ensures Stands(env, steps, Answered(env, Client1(env), FirstKey(env), None), Server2(env), known, Used({1}, {10}, {}, {}, {}))
    ensures Atoms(AckRecord(env, FirstKey(env))) <= known
  {
    hide Stands;
    steps, known := Step3(env);
    var event, draws := S.TunnelFrame(5, FirstFinish(env)), SDraws([], None, None, [], [10]);
    Deliver(event.frame, known);
    ServerAccepts(env);
    var o := S.ServerStep(env.server, Server1(env), event, 0, draws);
    ServerMoves(env, steps, Answered(env, Client1(env), FirstKey(env), None), Server1(env), known, Used({1}, {10}, {}, {}, {}),
                event, 0, draws, Used({1}, {10}, {}, {}, {}));
    Sends(o.reply.actions, 0);
    steps, known := steps + [ServerStep(event, 0, draws)], known + SentAtoms(o.reply.actions);
  }

  function Client2(env: Env): C.Client {
    Ready(env, FirstKey(env), None, 0, 1, NewTable(), map[], map[])
  }

  lemma Step5(env: Env) returns (steps: seq<Step>, known: set<Atom>)
    requires Example(env)
    ensures Stands(env, steps, Client2(env), Server2(env), known, Used({1}, {10}, {}, {}, {}))
  {
    hide Stands;
    steps, known := Step4(env);
    var event, draws := C.TunnelFrame(env.client.serverPeer, AckRecord(env, FirstKey(env))), Draws(None, [], []);
    Deliver(event.frame, known);
    ClientReady(env);
    var c := Answered(env, Client1(env), FirstKey(env), None);
    var o := C.ClientStep(env.client, c, event, 0, draws);
    ClientMoves(env, steps, c, Server2(env), known, Used({1}, {10}, {}, {}, {}), event, draws, Used({1}, {10}, {}, {}, {}));
    steps, known := steps + [ClientStep(event, 0, draws)], known + SentAtoms(o.reply.actions);
  }

  function Client3(env: Env): C.Client {
    Ready(env, FirstKey(env), None, 1, 1, OneHandle(), OnePeer(None), map[50 := 7])
  }

  lemma Step6(env: Env) returns (steps: seq<Step>, known: set<Atom>)
    requires Example(env)
    ensures Stands(env, steps, Client3(env), Server2(env), known, Used({1}, {10}, {}, {50}, {0}))
    ensures Atoms(FirstData(env)) <= known
  {
    hide Stands;
    steps, known := Step5(env);
    var event, draws := C.ClientDatagram(First()), Draws(None, [Some(50)], []);
    ClientSendsFirst(env);
    var o := C.ClientStep(env.client, Client2(env), event, 0, draws);
    ClientMoves(env, steps, Client2(env), Server2(env), known, Used({1}, {10}, {}, {}, {}), event, draws, Used({1}, {10}, {}, {50}, {0}));
    Sends(o.reply.actions, 1);
    steps, known := steps + [ClientStep(event, 0, draws)], known + SentAtoms(o.reply.actions);
  }

  function Server3(env: Env): S.Server
    requires env.server.cfg.rateLimitBurst >= 2 * Tries(env)
  {
    FirstUp(env, Tries(env), 2, SWindow(env, 1), map[100 := 0], Table100(), Lease(env))
  }

  lemma Step7(env: Env) returns (steps: seq<Step>, known: set<Atom>)
    requires Example(env)
    ensures Stands(env, steps, Client3(env), Server3(env), known, Used({1}, {10}, {100}, {50}, {0}))
    ensures Atoms(CredentialRecord(env)) <= known
  {
    hide Stands;
    steps, known := Step6(env);
    var event, draws := S.TunnelFrame(5, FirstData(env)), SDraws([], None, Some(100), [100], []);
    Deliver(event.frame, known);
    ServerOpens(env);
    var o := S.ServerStep(env.server, Server2(env), event, 0, draws);
    ServerMoves(env, steps, Client3(env), Server2(env), known, Used({1}, {10}, {}, {50}, {0}), event, 0, draws, Used({1}, {10}, {100}, {50}, {0}));
    Sends(o.reply.actions, 1);
    steps, known := steps + [ServerStep(event, 0, draws)], known + SentAtoms(o.reply.actions);
  }

  lemma ArrivesUpstream(env: Env, steps: seq<Step>, c: C.Client, s: S.Server, known: set<Atom>, used: Used,
                        event: S.ServerEvent, draws: S.ServerDraws, i: nat)
    requires ValidEnv(env) && Stands(env, steps, c, s, known, used)
    requires event.TunnelFrame? && event.frame.RecordMsg? && Deliverable(event.frame, known)
    requires draws.conv.Some? ==> draws.conv.value !in used.opening
    requires draws.sids == [] && Enumerates(draws.pendingOrder, s.pending.Keys) && S.RefreshesAll(s, event, draws)
    requires var r := S.ServerStep(env.server, s, event, 0, draws).reply;
             r.Ok? && i < |r.actions| && r.actions[i].DeliverToUpstream?
    ensures var steps1 := steps + [ServerStep(event, 0, draws)];
            ValidRun(env, steps1) && Run(env, steps1).history.ups != []
  {
    hide S.ServerStep, SE.Opens, SentAtoms, AcceptedBy;
    OneMore(env, steps, ServerStep(event, 0, draws));
    Delivered(S.ServerStep(env.server, s, event, 0, draws).reply.actions, i, event.frame.body);
  }

  /** The first datagram comes out upstream. */
  lemma DatagramArrives(env: Env) returns (steps: seq<Step>)
    requires Example(env)
    ensures ValidRun(env, steps) && Run(env, steps).history.ups != []
  {
    hide Stands, ValidRun, Run;
    var known;
    steps, known := Step6(env);
    var event, draws := S.TunnelFrame(5, FirstData(env)), SDraws([], None, Some(100), [100], []);
    Deliver(event.frame, known);
    ServerOpens(env);
    ArrivesUpstream(env, steps, Client3(env), Server2(env), known, Used({1}, {10}, {}, {50}, {0}), event, draws, 2);
    steps := steps + [ServerStep(event, 0, draws)];
  }

  lemma {:induction false} Delivered(actions: seq<Action>, i: nat, body: Body)
    requires i < |actions| && actions[i].DeliverToUpstream?
    ensures UpsOf(actions, body) != []
  {
    if i > 0 {
      Delivered(actions[1..], i - 1, body);
    }
  }

  // ---------------------------------------------------------------- the second session

  function Held(env: Env): Option<C.Ticket> {
    Some(C.Ticket(10, Ticket(env)))
  }

  function Client4(env: Env): C.Client {
    Ready(env, FirstKey(env), None, 1, 2, OneHandle(), OnePeer(Held(env)), map[50 := 7])
  }

  lemma Step8(env: Env) returns (steps: seq<Step>, known: set<Atom>)
    requires Example(env)
    ensures Stands(env, steps, Client4(env), Server3(env), known, Used({1}, {10}, {100}, {50}, {0}))
  {
    hide Stands;
    steps, known := Step7(env);
    var event, draws := C.TunnelFrame(env.client.serverPeer, CredentialRecord(env)), Draws(None, [], [7]);
    var used := Used({1}, {10}, {100}, {50}, {0});
    Deliver(event.frame, known);
    ClientStoresTicket(env);
    var o := C.ClientStep(env.client, Client3(env), event, 0, draws);
    ClientMoves(env, steps, Client3(env), Server3(env), known, used, event, draws, used);
    steps, known := steps + [ClientStep(event, 0, draws)], known + SentAtoms(o.reply.actions);
  }

  function Client5(env: Env): C.Client {
    Waiting(SecondHello(env), Tries(env), C.Reconnecting, OnePeer(Held(env)), map[50 := 7])
  }

  /** The server before it hears the second hello it lets in. */
  function Server4(env: Env): S.Server
    requires env.server.cfg.rateLimitBurst >= 2 * Tries(env)
  {
    FirstUp(env, 2 * Tries(env) - 1, 2, SWindow(env, 1), map[100 := 0], Table100(), Lease(env))
  }

  lemma Step9(env: Env) returns (steps: seq<Step>, known: set<Atom>)
    requires Example(env)
    ensures Stands(env, steps, Client5(env), Server4(env), known, Used({1, 2}, {10}, {100}, {50}, {0}))
    ensures Atoms(HelloMsg(SecondHello(env))) <= known
  {
    hide Stands;
    steps, known := Step8(env);
    var draws := Draws(Some(C.HelloRandom(2, 2)), [], [7]);
    ClientReconnects(env);
    var o := C.ClientStep(env.client, Client4(env), C.Reconnect, 0, draws);
    ClientMoves(env, steps, Client4(env), Server3(env), known, Used({1}, {10}, {100}, {50}, {0}), C.Reconnect, draws,
                Used({1, 2}, {10}, {100}, {50}, {0}));
    Sends(o.reply.actions, 1);
    steps, known := steps + [ClientStep(C.Reconnect, 0, draws)], known + SentAtoms(o.reply.actions);
    steps, known := Step9Cookie(env, steps, known);
  }

  lemma Step9Cookie(env: Env, before: seq<Step>, had: set<Atom>) returns (steps: seq<Step>, known: set<Atom>)
    requires Example(env) && Atoms(HelloMsg(SecondBare(env))) <= had
    requires Stands(env, before, Waiting(SecondBare(env), 1, C.Reconnecting, OnePeer(Held(env)), map[50 := 7]), Server3(env), had,
                    Used({1, 2}, {10}, {100}, {50}, {0}))
    ensures Stands(env, steps, Client5(env), Server4(env), known, Used({1, 2}, {10}, {100}, {50}, {0}))
    ensures Atoms(HelloMsg(SecondHello(env))) <= known
  {
    hide Stands;
    steps, known := before, had;
    if env.server.cfg.requireHandshakeCookie {
      var c := Waiting(SecondBare(env), 1, C.Reconnecting, OnePeer(Held(env)), map[50 := 7]);
      steps, known := CookieExchange(env, before, had, c, Server3(env), SecondBare(env), [7], 2, Used({1, 2}, {10}, {100}, {50}, {0}));
    }
  }

  lemma Step10(env: Env) returns (steps: seq<Step>, known: set<Atom>)
    requires Example(env)
    ensures Stands(env, steps, Client5(env), Resuming(env), known, Used({1, 2}, {10, 20}, {100}, {50}, {0}))
    ensures Atoms(ServerHelloMsg(20, SecondAnswer(env))) <= known
  {
    hide Stands, S.ServerStep;
    steps, known := Step9(env);
    var event, draws := S.TunnelFrame(5, HelloMsg(SecondHello(env))), SDraws([20], Some(S.ServerRandom(2, 2)), None, [], []);
    Deliver(event.frame, known);
    ServerHearsAgain(env);
    var o := S.ServerStep(env.server, Server4(env), event, 0, draws);
    ServerMoves(env, steps, Client5(env), Server4(env), known, Used({1, 2}, {10}, {100}, {50}, {0}), event, 0, draws,
                Used({1, 2}, {10, 20}, {100}, {50}, {0}));
    Sends(o.reply.actions, 0);
    steps, known := steps + [ServerStep(event, 0, draws)], known + SentAtoms(o.reply.actions);
  }

  function SecondFinish(env: Env): Frame {
    FinishMsg(20, CreateFinish(env.client.psk, SecondHello(env), SecondAnswer(env), 20))
  }

  function Client6(env: Env): C.Client {
    Answered(env, Client5(env), SecondKey(env), Some(10))
  }

  lemma Step11(env: Env) returns (steps: seq<Step>, known: set<Atom>)
    requires Example(env)
    ensures Stands(env, steps, Client6(env), Resuming(env), known, Used({1, 2}, {10, 20}, {100}, {50}, {0}))
    ensures Atoms(SecondFinish(env)) <= known
  {
    hide Stands;
    steps, known := Step10(env);
    var event, draws := C.TunnelFrame(env.client.serverPeer, ServerHelloMsg(20, SecondAnswer(env))), Draws(None, [], [7]);
    var used := Used({1, 2}, {10, 20}, {100}, {50}, {0});
    Deliver(event.frame, known);
    ClientAnswers(env, Client5(env), SecondKey(env), [7]);
    assert C.TicketSource(OnePeer(Held(env)), [7], Ticket(env)) == Some(10);
    var o := C.ClientStep(env.client, Client5(env), event, 0, draws);
    ClientMoves(env, steps, Client5(env), Resuming(env), known, used, event, draws, used);
    Sends(o.reply.actions, 0);
    steps, known := steps + [ClientStep(event, 0, draws)], known + SentAtoms(o.reply.actions);
  }

  lemma Step12(env: Env) returns (steps: seq<Step>, known: set<Atom>)
    requires Example(env)
    ensures Stands(env, steps, Client6(env), SecondUp(env), known, Used({1, 2}, {10, 20}, {100}, {50}, {0}))
    ensures Atoms(AckRecord(env, SecondKey(env))) <= known
  {
    hide Stands;
    steps, known := Step11(env);
    var event, draws := S.TunnelFrame(5, SecondFinish(env)), SDraws([], None, None, [], [20]);
    var used := Used({1, 2}, {10, 20}, {100}, {50}, {0});
    Deliver(event.frame, known);
    ServerResumes(env);
    var o := S.ServerStep(env.server, Resuming(env), event, 0, draws);
    ServerMoves(env, steps, Client6(env), Resuming(env), known, used, event, 0, draws, used);
    Sends(o.reply.actions, 0);
    steps, known := steps + [ServerStep(event, 0, draws)], known + SentAtoms(o.reply.actions);
  }

  function Client7(env: Env): C.Client {
    Ready(env, SecondKey(env), Some(10), 1, 1, OneHandle(), OnePeer(Held(env)), map[50 := 7])
  }

  lemma Step13(env: Env) returns (steps: seq<Step>, known: set<Atom>)
    requires Example(env)
    ensures Stands(env, steps, Client7(env), SecondUp(env), known, Used({1, 2}, {10, 20}, {100}, {50}, {0}))
    ensures BodyAtom(Announcement(env).body) in known
  {
    hide Stands;
    steps, known := Step12(env);
    var event, draws := C.TunnelFrame(env.client.serverPeer, AckRecord(env, SecondKey(env))), Draws(None, [], [7]);
    var used := Used({1, 2}, {10, 20}, {100}, {50}, {0});
    Deliver(event.frame, known);
    ClientRebinds(env);
    var o := C.ClientStep(env.client, Client6(env), event, 0, draws);
    ClientMoves(env, steps, Client6(env), SecondUp(env), known, used, event, draws, used);
    Sends(o.reply.actions, 1);
    steps, known := steps + [ClientStep(event, 0, draws)], known + SentAtoms(o.reply.actions);
  }

  function SecondData(env: Env): Frame {
    Record(env, SecondKey(env), ClientToServer, 1, Data, Some(1), Payload([]))
  }

  lemma Step14(env: Env) returns (steps: seq<Step>, known: set<Atom>, c: C.Client)
    requires Example(env)
    ensures Stands(env, steps, c, SecondUp(env), known, Used({1, 2}, {10, 20}, {100}, {50}, {0, 1}))
    ensures Atoms(SecondData(env)) <= known && BodyAtom(Announcement(env).body) in known
  {
    hide Stands;
    steps, known := Step13(env);
    var event, draws := C.ClientDatagram(C.Datagram(7, [], 1)), Draws(None, [], [7]);
    ClientSendsSecond(env);
    var o := C.ClientStep(env.client, Client7(env), event, 0, draws);
    SecondSent(env, o);
    ClientMoves(env, steps, Client7(env), SecondUp(env), known, Used({1, 2}, {10, 20}, {100}, {50}, {0}), event, draws,
                Used({1, 2}, {10, 20}, {100}, {50}, {0, 1}));
    Sends(o.reply.actions, 0);
    steps, known, c := steps + [ClientStep(event, 0, draws)], known + SentAtoms(o.reply.actions), o.client;
  }

  lemma SecondSent(env: Env, o: C.ClientOutcome)
    requires Example(env)
    requires o == C.ClientStep(env.client, Client7(env), C.ClientDatagram(C.Datagram(7, [], 1)), 0, Draws(None, [], [7]))
    ensures o.client.handshake.None? && o.client.byId == map[50 := 7]
  {
  }

  /** Some record that re-announces a conversation was sent, and the server was
      never handed it. */
  ghost predicate AnnouncementLost(env: Env, steps: seq<Step>, body: Body)
    requires ValidEnv(env)
  {
    && body.Sealed? && body.header.ftype.ResumeConversation? && BodyAtom(body) in Run(env, steps).history.known
    && Withheld(steps, body)
  }

  /** A run that ends with a server that has crashed. Its last step is a data record
      on which a panic is due, the conversation without a handle being one whose
      re-announcement was lost. */
  lemma LossCrashesServer(env: Env) returns (steps: seq<Step>, lost: Body)
    requires Example(env)
    ensures ValidRun(env, steps) && !Run(env, steps).serverUp && AnnouncementLost(env, steps, lost)
    ensures steps != [] && steps[|steps| - 1].ServerStep?
    ensures var last := steps[|steps| - 1]; var before := Run(env, steps[..|steps| - 1]);
            && SR.PanicDue(env.server, before.server, last.sevent, last.snow, last.sdraws)
            && var session := before.server.sessions[last.sevent.frame.header.sid];
               && lost.plain.CredentialBytes? && session.resumedFrom == Some(lost.plain.credential.body.session)
               && lost.plain.credential.body.conversation in session.conversations
               && lost.plain.credential.body.conversation !in session.handles.byId
  {
    hide Stands, Run, ValidRun, SR.PanicDue;
    var known, c;
    steps, known, c := Step14(env);
    lost := Announcement(env).body;
    var late := env.server.cfg.resumptionLifetime;
    var event, draws := S.TunnelFrame(5, SecondData(env)), SDraws([], None, Some(101), [100, 101], []);
    Deliver(event.frame, known);
    ServerPanics(env, late);
    assert S.RefreshesAll(SecondUp(env), event, draws);
    PanicWasDue(env, steps, c, known, event, late, draws);
    Crashes(env, steps, c, SecondUp(env), known, Used({1, 2}, {10, 20}, {100}, {50}, {0, 1}), event, late, draws);
    assert (steps + [ServerStep(event, late, draws)])[..|steps|] == steps;
    steps := steps + [ServerStep(event, late, draws)];
  }

  lemma Crashes(env: Env, steps: seq<Step>, c: C.Client, s: S.Server, known: set<Atom>, used: Used,
                event: S.ServerEvent, now: Time, draws: S.ServerDraws)
    requires ValidEnv(env) && Stands(env, steps, c, s, known, used)
    requires event.TunnelFrame? && event.frame.RecordMsg? && Deliverable(event.frame, known)
    requires event.frame.body != Announcement(env).body && BodyAtom(Announcement(env).body) in known
    requires (draws.conv.Some? ==> draws.conv.value !in used.opening) && draws.sids == []
    requires Enumerates(draws.pendingOrder, s.pending.Keys) && S.RefreshesAll(s, event, draws)
    requires S.ServerStep(env.server, s, event, now, draws).reply.Panic?
    ensures var steps1 := steps + [ServerStep(event, now, draws)];
            && ValidRun(env, steps1) && !Run(env, steps1).serverUp && AnnouncementLost(env, steps1, Announcement(env).body)
            && Run(env, steps).server == s
  {
    hide S.ServerStep, SE.Opens, SentAtoms, AcceptedBy, OffersOf;
    OneMore(env, steps, ServerStep(event, now, draws));
  }

  lemma PanicWasDue(env: Env, steps: seq<Step>, c: C.Client, known: set<Atom>, event: S.ServerEvent, now: Time, draws: S.ServerDraws)
    requires Example(env) && Stands(env, steps, c, SecondUp(env), known, Used({1, 2}, {10, 20}, {100}, {50}, {0, 1}))
    requires S.ServerStep(env.server, SecondUp(env), event, now, draws).reply.Panic?
    requires draws.conv == Some(101) && S.RefreshesAll(SecondUp(env), event, draws)
    ensures SR.PanicDue(env.server, SecondUp(env), event, now, draws)
  {
    hide SR.PanicDue;
    TT.RunInv(env, steps);
    TT.DrawsFresh(Run(env, steps).history, SecondUp(env), draws.conv);
    SR.PanicsExactly(env.server, SecondUp(env), event, now, draws);
  }
}
