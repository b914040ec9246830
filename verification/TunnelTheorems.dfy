/** Safety of whole runs of client, server and network. */
module TunnelTheorems {
  import opened Base
  import opened Messages
  import opened Tunnel
  import opened TunnelInvariant
  import TC = TunnelClient
  import TS = TunnelServer
  import C = ClientSpec
  import CI = ClientInvariants
  import CN = ClientSending
  import CT = ClientTheorems
  import S = ServerSpec
  import SI = ServerInvariants
  import SS = ServerSteps
  import SE = ServerEffects

  // ---------------------------------------------------------------- one step

  lemma ServerStands(env: Env, h: History, h1: History, c0: C.Client, o: C.ClientOutcome,
                     event: C.ClientEvent, draws: C.ClientDraws, server: S.Server)
    requires TC.Setting(env.client, h, h1, c0, o, event, draws)
    requires ServerLink(h, server) && SI.SessionTable(env.server, server.sessions)
    ensures ServerLink(h1, server)
  {
    TC.RecordsKeyed(c0, o.client, CN.SentRecords(o.reply), o.fates);
    TC.NewBodiesUp(h, h1, o);
    TC.ServerUnmoved(env.server, h, h1, server);
  }

  lemma ClientSetting(env: Env, sys: System, event: C.ClientEvent, now: Time, draws: C.ClientDraws)
    requires SystemInv(env, sys) && ValidEnv(env) && Enabled(env, sys, ClientStep(event, now, draws))
    ensures var o := C.ClientStep(env.client, sys.client, event, now, draws);
            TC.Setting(env.client, sys.history, AfterClient(sys.history, event, o), sys.client, o, event, draws)
  {
    var o := C.ClientStep(env.client, sys.client, event, now, draws);
    CT.ClientStepKeeps(env.client, sys.client, event, now, draws);
    TC.ClientHistoryGrows(env.client, sys.history, AfterClient(sys.history, event, o), sys.client, o, event, draws);
  }

  lemma ClientStepInv(env: Env, sys: System, event: C.ClientEvent, now: Time, draws: C.ClientDraws)
    requires SystemInv(env, sys) && ValidEnv(env) && Enabled(env, sys, ClientStep(event, now, draws))
    ensures SystemInv(env, Next(env, sys, ClientStep(event, now, draws)))
  {
    var o := C.ClientStep(env.client, sys.client, event, now, draws);
    var h, h1 := sys.history, AfterClient(sys.history, event, o);
    ClientSetting(env, sys, event, now, draws);
    TC.ClientHistorySound(env.client, h, h1, sys.client, o, event, draws);
    TC.ClientLinked(env.client, h, h1, sys.client, o, event, draws);
    TC.AgreedKept(h, h1, sys.client, o.client, event);
    TC.ClientLogs(env.client, h, h1, sys.client, o, event, draws);
    ServerStands(env, h, h1, sys.client, o, event, draws, sys.server);
  }

  /** A drawn conversation identifier that no record has opened is held nowhere. */
  lemma DrawsFresh(h: History, s: S.Server, draw: Option<ConvId>)
    requires ServerLink(h, s) && (draw.Some? ==> draw.value !in h.openedBy)
    ensures SI.FreshConv(s, draw)
  {
    if draw.Some? {
      forall sid
        ensures draw.value !in SI.Held(s, sid)
      {
        assert SI.Held(s, sid) <= h.openedBy.Keys;
      }
    }
  }

  lemma ServerSetting(env: Env, sys: System, event: S.ServerEvent, now: Time, draws: S.ServerDraws)
    requires SystemInv(env, sys) && ValidEnv(env) && Enabled(env, sys, ServerStep(event, now, draws))
    ensures var o := S.ServerStep(env.server, sys.server, event, now, draws);
            && SI.ServerInv(env.server, o.server)
            && TS.ServerSetting(env.server, sys.history, AfterServer(sys.history, sys.server, event, draws.conv, o),
                                sys.server, o, event, draws)
  {
    var o := S.ServerStep(env.server, sys.server, event, now, draws);
    var h, h1 := sys.history, AfterServer(sys.history, sys.server, event, draws.conv, o);
    DrawsFresh(h, sys.server, draws.conv);
    SS.ServerStepKeeps(env.server, sys.server, event, now, draws);
    SE.ServerStepEffect(env.server, sys.server, event, now, draws);
    TS.ServerHistoryGrows(env.server, h, h1, sys.server, o, event, draws);
  }

  lemma ServerLinked(env: Env, sys: System, event: S.ServerEvent, now: Time, draws: S.ServerDraws)
    requires SystemInv(env, sys) && ValidEnv(env) && Enabled(env, sys, ServerStep(event, now, draws))
    ensures var sys1 := Next(env, sys, ServerStep(event, now, draws));
            ServerLink(sys1.history, sys1.server)
  {
    var o := S.ServerStep(env.server, sys.server, event, now, draws);
    var h, h1 := sys.history, AfterServer(sys.history, sys.server, event, draws.conv, o);
    ServerSetting(env, sys, event, now, draws);
    SE.PendingDrawn(env.server, sys.server, event, now, draws);
    SE.HeldAfter(env.server, sys.server, event, now, draws);
    TS.AcceptedNotPending(env.server, h, h1, sys.server, o, event, draws);
    TS.HeldOpened(h, h1, sys.server, o, event, draws);
    forall sid | sid in o.server.sessions
      ensures ServerSessionLink(h1, o.server.sessions[sid])
    {
      TS.ServerSessionLinked(env.server, h, h1, sys.server, o, event, draws, sid);
    }
  }

  lemma ServerStepInv(env: Env, sys: System, event: S.ServerEvent, now: Time, draws: S.ServerDraws)
    requires SystemInv(env, sys) && ValidEnv(env) && Enabled(env, sys, ServerStep(event, now, draws))
    ensures SystemInv(env, Next(env, sys, ServerStep(event, now, draws)))
  {
    var o := S.ServerStep(env.server, sys.server, event, now, draws);
    var h, h1 := sys.history, AfterServer(sys.history, sys.server, event, draws.conv, o);
    ServerSetting(env, sys, event, now, draws);
    ServerLinked(env, sys, event, now, draws);
    TS.ServerHistorySound(env.server, h, h1, sys.server, o, event, draws);
    TS.ServerKnownKept(env.server, h, h1, sys.server, o, event, draws);
    TS.ServerLogs(env.server, h, h1, sys.server, o, event, draws);
    TS.ClientUnmoved(h, h1, sys.client);
  }

  // ---------------------------------------------------------------- whole runs

  lemma {:induction false} RunInv(env: Env, steps: seq<Step>)
    requires ValidEnv(env) && ValidRun(env, steps)
    ensures SystemInv(env, Run(env, steps))
    decreases |steps|
  {
    if steps == [] {
      NewSystemInv(env);
    } else {
      var before := steps[..|steps| - 1];
      RunInv(env, before);
      match steps[|steps| - 1]
      case ClientStep(event, now, draws) => ClientStepInv(env, Run(env, before), event, now, draws);
      case ServerStep(event, now, draws) => ServerStepInv(env, Run(env, before), event, now, draws);
    }
  }

  /** No cross-streaming. Whatever the network does and however often sessions are
      resumed: a payload delivered upstream on a conversation is the payload of a
      client datagram, and it comes from the client conversation and the local
      peer whose datagram opened that conversation; a reply delivered to a local
      peer was handed to the server for a conversation which that peer's own
      datagram opened. */
  lemma NoCrossStreaming(env: Env, steps: seq<Step>)
    requires ValidEnv(env) && ValidRun(env, steps)
    ensures var h := Run(env, steps).history;
            && (forall u :: u in h.ups ==> UpSound(h, u))
            && (forall d :: d in h.downs ==> DownSound(h, d))
  {
    RunInv(env, steps);
  }

  /** Replies on a conversation go to the peer whose payloads it received, and to
      no other. */
  lemma RepliesReturn(env: Env, steps: seq<Step>, u: Up, d: Down)
    requires ValidEnv(env) && ValidRun(env, steps)
    requires var h := Run(env, steps).history;
             u in h.ups && d in h.downs && d.body in h.replyFor && h.replyFor[d.body].conv == u.conv
    ensures var h := Run(env, steps).history;
            u.body in h.carried && h.carried[u.body].datagram.localPeer == d.localPeer
  {
    NoCrossStreaming(env, steps);
    var h := Run(env, steps).history;
    assert UpSound(h, u) && DownSound(h, d);
  }

  /** Handshake agreement. A ready client's session is one whose finish the server
      has accepted under the same hello, server hello, identifier and key; and
      whatever the client reports of a session, the server has reported. */
  lemma HandshakeAgreement(env: Env, steps: seq<Step>)
    requires ValidEnv(env) && ValidRun(env, steps)
    ensures var sys := Run(env, steps); var h := sys.history;
            && (sys.client.mode.Ready? ==>
                  && sys.client.session.Some?
                  && var key := CI.KeyOf(sys.client.session.value);
                     key in h.accepted && h.accepted[key] == Terms(key.sid, key.hello.suite, key.serverHello.body.resumed))
            && (forall r :: r in h.reports ==> r.key in h.accepted && h.accepted[r.key] == r.terms)
  {
    RunInv(env, steps);
    var sys := Run(env, steps);
    if sys.client.mode.Ready? {
      assert AcceptedSound(sys.history, CI.KeyOf(sys.client.session.value));
    }
    assert forall r :: r in sys.history.reports ==> ReportSound(sys.history, r);
  }

  /** No two records of one key and one packet number: what has been sent under a
      nonce is one and the same record. */
  lemma NoncesUnique(env: Env, steps: seq<Step>, b1: Body, b2: Body)
    requires ValidEnv(env) && ValidRun(env, steps)
    requires var h := Run(env, steps).history; BodyAtom(b1) in h.known && BodyAtom(b2) in h.known
    requires b1.Sealed? && b2.Sealed? && b1.key == b2.key && b1.header.number == b2.header.number
    ensures b1 == b2
  {
    RunInv(env, steps);
    assert SameNumberSame(Run(env, steps).history, b1, b2);
  }
}
