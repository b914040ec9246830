/** Delivery guarantees of whole runs: at most once, in order, to one session. */
module TunnelGuarantees {
  import opened Messages
  import opened Tunnel
  import opened TunnelInvariant
  import opened TunnelDelivery
  import opened TunnelOrder
  import TT = TunnelTheorems
  import C = ClientSpec
  import CI = ClientInvariants
  import CC = ClientConservation
  import CW = ClientWindows
  import S = ServerSpec
  import SI = ServerInvariants
  import SW = ServerWindows

  ghost predicate DeliveryInv(sys: System) {
    && UpsOnce(sys.history, sys.server)
    && DownsOnce(sys.history, sys.client)
    && SidsUnique(sys.history)
    && OrderInv(sys.history, sys.client)
  }

  lemma ClientDelivery(env: Env, sys: System, event: C.ClientEvent, now: Time, draws: C.ClientDraws)
    requires SystemInv(env, sys) && ValidEnv(env) && Enabled(env, sys, ClientStep(event, now, draws)) && DeliveryInv(sys)
    ensures DeliveryInv(Next(env, sys, ClientStep(event, now, draws)))
  {
    var o := C.ClientStep(env.client, sys.client, event, now, draws);
    var h, h1 := sys.history, AfterClient(sys.history, event, o);
    TT.ClientSetting(env, sys, event, now, draws);
    CW.ClientStepWindow(env.client, sys.client, event, now, draws);
    CC.ClientStepConserves(env.client, sys.client, event, now, draws);
    if TurnedAway(event, o) {
      TurnedAwayStep(env.client, sys.client, event, now, draws);
    }
    DownsOnceKept(env.client, h, h1, sys.client, o, event, draws);
    OrderKept(env.client, h, h1, sys.client, o, event);
    ServerSideStays(h, h1, sys.server);
  }

  lemma ServerSideStays(h: History, h1: History, s: S.Server)
    requires HistoryGrows(h, h1) && h1.ups == h.ups && h1.accepted == h.accepted
    requires UpsOnce(h, s) && SidsUnique(h)
    ensures UpsOnce(h1, s) && SidsUnique(h1)
  {
    forall k1, k2
      ensures SameSid(h1, k1, k2)
    {
      assert SameSid(h, k1, k2);
    }
  }

  lemma ServerDelivery(env: Env, sys: System, event: S.ServerEvent, now: Time, draws: S.ServerDraws)
    requires SystemInv(env, sys) && ValidEnv(env) && Enabled(env, sys, ServerStep(event, now, draws)) && DeliveryInv(sys)
    ensures DeliveryInv(Next(env, sys, ServerStep(event, now, draws)))
  {
    var o := S.ServerStep(env.server, sys.server, event, now, draws);
    var h, h1 := sys.history, AfterServer(sys.history, sys.server, event, draws.conv, o);
    TT.ServerSetting(env, sys, event, now, draws);
    SW.ServerStepWindow(env.server, sys.server, event, now, draws);
    UpsOnceKept(env.server, h, h1, sys.server, o, event, draws);
    SidsUniqueKept(env.server, h, h1, sys.server, o, event, draws);
    ClientSideStays(h, h1, sys.client);
  }

  lemma ClientSideStays(h: History, h1: History, c: C.Client)
    requires HistoryGrows(h, h1) && h1.downs == h.downs && h1.owner == h.owner && h1.carried == h.carried
    requires h1.line == h.line && h1.fates == h.fates && h1.serials == h.serials
    requires DownsOnce(h, c) && OrderInv(h, c)
    ensures DownsOnce(h1, c) && OrderInv(h1, c)
  {
    forall b
      ensures CarriedOnce(h1, b)
    {
      assert CarriedOnce(h, b);
    }
    forall f | f in h1.fates
      ensures FateKnown(h1, f)
    {
      assert FateKnown(h, f);
    }
  }

  lemma {:induction false} RunDelivery(env: Env, steps: seq<Step>)
    requires ValidEnv(env) && ValidRun(env, steps)
    ensures DeliveryInv(Run(env, steps))
    decreases |steps|
  {
    if steps != [] {
      var before := steps[..|steps| - 1];
      RunDelivery(env, before);
      TT.RunInv(env, before);
      match steps[|steps| - 1]
      case ClientStep(event, now, draws) => ClientDelivery(env, Run(env, before), event, now, draws);
      case ServerStep(event, now, draws) => ServerDelivery(env, Run(env, before), event, now, draws);
    }
  }

  /** At most once. However often the network repeats a frame and however often
      sessions are resumed, no client datagram is delivered upstream twice, and no
      reply record is delivered to a local peer twice. */
  lemma AtMostOnce(env: Env, steps: seq<Step>, i: nat, j: nat)
    requires ValidEnv(env) && ValidRun(env, steps) && i < j
    ensures var h := Run(env, steps).history;
            j < |h.ups| ==> h.ups[i].body in h.carried && h.ups[j].body in h.carried
                            && h.carried[h.ups[i].body].datagram.serial != h.carried[h.ups[j].body].datagram.serial
    ensures var h := Run(env, steps).history;
            j < |h.downs| ==> h.downs[i].body != h.downs[j].body
  {
    hide Run, ValidRun, CarriedOnce, SidsUnique, Spent, DownSpent, DownSound;
    RunDelivery(env, steps);
    TT.NoCrossStreaming(env, steps);
    var sys := Run(env, steps);
    if j < |sys.history.ups| {
      var b1, b2 := sys.history.ups[i].body, sys.history.ups[j].body;
      assert UpSound(sys.history, sys.history.ups[i]) && UpSound(sys.history, sys.history.ups[j]);
      if sys.history.carried[b1].datagram.serial == sys.history.carried[b2].datagram.serial {
        SerialsApart(sys.history, sys.client, b1, b2);
      }
    }
  }

  /** Conservation. The datagrams accepted so far are, in order of arrival, those
      whose fate is decided followed by those still queued; and of two datagrams
      sealed under one session key the earlier has the lower packet number. */
  lemma DatagramsInOrder(env: Env, steps: seq<Step>)
    requires ValidEnv(env) && ValidRun(env, steps)
    ensures var sys := Run(env, steps); var h := sys.history;
            && h.line == CC.Settled(h.fates) + CC.Waiting(sys.client.queue)
            && (forall i, j :: 0 <= i < j < |h.fates| ==> Follows(h.fates[i], h.fates[j]))
  {
    RunDelivery(env, steps);
  }

  /** One session, one pair of keys. When the client is ready in a session that the
      server still has under the same identifier, what either seals the other can
      authenticate. */
  lemma KeysAgree(env: Env, steps: seq<Step>)
    requires ValidEnv(env) && ValidRun(env, steps)
    ensures var sys := Run(env, steps);
            sys.client.mode.Ready? && sys.client.session.Some? && sys.client.session.value.id in sys.server.sessions ==>
              var c := sys.client.session.value; var s := sys.server.sessions[c.id];
              && c.sealer.key == s.opener.key && s.sealer.key == c.opener.key
              && c.resumed == s.resumedFrom.Some?
  {
    RunDelivery(env, steps);
    TT.RunInv(env, steps);
    var sys := Run(env, steps);
    if sys.client.mode.Ready? && sys.client.session.Some? && sys.client.session.value.id in sys.server.sessions {
      var c := sys.client.session.value;
      assert ServerSessionLink(sys.history, sys.server.sessions[c.id]);
      assert SI.SessionSound(env.server, sys.server.sessions[c.id], c.id);
      assert SameSid(sys.history, CI.KeyOf(c), SI.KeyOf(sys.server.sessions[c.id]));
    }
  }
}
