/** Delivery at most once, and in order, over whole runs. */
module TunnelDelivery {
  import opened Messages
  import opened ReplaySpec
  import opened Tunnel
  import opened TunnelInvariant
  import opened TunnelLogs
  import TC = TunnelClient
  import TS = TunnelServer
  import C = ClientSpec
  import CI = ClientInvariants
  import CS = ClientSteps
  import CW = ClientWindows
  import S = ServerSpec
  import SI = ServerInvariants
  import SE = ServerEffects
  import SW = ServerWindows

  // ---------------------------------------------------------------- upstream, at most once

  /** The session can not open this delivery's record again. */
  ghost predicate Spent(s: S.Server, u: Up, sid: SessionId) {
    u.body.Sealed? && sid in s.sessions && s.sessions[sid].opener.key == u.body.key ==>
      u.body.header.number in s.sessions[sid].opener.window.seen
  }

  ghost predicate UpsOnce(h: History, s: S.Server) {
    && (forall sid :: sid in s.sessions ==> ValidWindow(s.sessions[sid].opener.window))
    && (forall i, j :: 0 <= i < j < |h.ups| ==> h.ups[i].body != h.ups[j].body)
    && (forall u :: u in h.ups ==> u.body.Sealed? && u.body.key.session in h.accepted)
    && (forall u, sid :: u in h.ups ==> Spent(s, u, sid))
  }

  lemma {:induction false} UpsCounted(actions: seq<Action>, body: Body)
    ensures |UpsOf(actions, body)| == SW.Deliveries(actions)
  {
    if actions != [] {
      UpsCounted(actions[1..], body);
    }
  }

  lemma WindowsValid(env: S.ServerEnv, s0: S.Server, s1: S.Server, event: S.ServerEvent)
    requires forall sid :: sid in s0.sessions ==> ValidWindow(s0.sessions[sid].opener.window)
    requires forall sid :: SW.WindowMoves(env, s0, s1, sid, event)
    requires env.cfg.replayWindowSize > 0
    ensures forall sid :: sid in s1.sessions ==> ValidWindow(s1.sessions[sid].opener.window)
  {
    forall sid | sid in s1.sessions
      ensures ValidWindow(s1.sessions[sid].opener.window)
    {
      assert SW.WindowMoves(env, s0, s1, sid, event);
    }
  }

  /** What was spent stays spent, and no new session can open it. */
  lemma StillSpent(env: S.ServerEnv, h: History, s0: S.Server, s1: S.Server, event: S.ServerEvent, draws: S.ServerDraws,
                   u: Up, sid: SessionId)
    requires TS.Linked(env, h, s0, s1, event, draws) && SW.WindowMoves(env, s0, s1, sid, event)
    requires u.body.Sealed? && u.body.key.session in h.accepted && Spent(s0, u, sid)
    ensures Spent(s1, u, sid)
  {
    hide SE.BoundBy, SI.HandlesSound, ServerSessionLink, SI.AckOf;
    if sid in s1.sessions && s1.sessions[sid].opener.key == u.body.key {
      assert SE.SessionEvolves(env, s0, s1, sid, event, draws.conv);
      assert SI.SessionSound(env, s1.sessions[sid], sid);
      if sid in s0.sessions {
        assert SI.SessionSound(env, s0.sessions[sid], sid);
      } else {
        assert false;
      }
    }
  }

  /** A delivery is of a record that was not spent before, and is now. */
  lemma NewlySpent(env: S.ServerEnv, h: History, s0: S.Server, s1: S.Server, event: S.ServerEvent, draws: S.ServerDraws,
                   u: Up, sid: SessionId)
    requires TS.Linked(env, h, s0, s1, event, draws)
    requires SE.DeliveredFor(s0, s1, sid, u.conv, u.payload, event) && u.body == event.frame.body
    requires SW.Admits(s0.sessions[sid].opener.window, s1.sessions[sid].opener.window, event)
    requires ValidWindow(s0.sessions[sid].opener.window)
    ensures u.body.Sealed? && u.body.key.session in h.accepted
    ensures !Spent(s0, u, sid)
    ensures forall x :: Spent(s1, u, x)
  {
    assert SI.SessionSound(env, s0.sessions[sid], sid);
    assert SE.SessionEvolves(env, s0, s1, sid, event, draws.conv);
    assert ServerSessionLink(h, s0.sessions[sid]);
    assert SI.SessionSound(env, s1.sessions[sid], sid);
    forall x
      ensures Spent(s1, u, x)
    {
      if x in s1.sessions {
        assert SI.SessionSound(env, s1.sessions[x], x);
      }
    }
  }

  lemma AllStillSpent(env: S.ServerEnv, h: History, s0: S.Server, s1: S.Server, event: S.ServerEvent, draws: S.ServerDraws)
    requires TS.Linked(env, h, s0, s1, event, draws) && UpsOnce(h, s0)
    requires forall sid :: SW.WindowMoves(env, s0, s1, sid, event)
    ensures forall u, sid :: u in h.ups ==> Spent(s1, u, sid)
  {
    forall u, sid | u in h.ups
      ensures Spent(s1, u, sid)
    {
      assert SW.WindowMoves(env, s0, s1, sid, event) && Spent(s0, u, sid);
      StillSpent(env, h, s0, s1, event, draws, u, sid);
    }
  }

  /** One more delivery, of a record that was not spent. */
  lemma UpsOnceMore(h: History, h1: History, s0: S.Server, s1: S.Server, u: Up, sid: SessionId)
    requires UpsOnce(h, s0) && HistoryGrows(h, h1) && h1.ups == h.ups + [u]
    requires u.body.Sealed? && u.body.key.session in h.accepted && !Spent(s0, u, sid)
    requires forall x, y :: x in h.ups ==> Spent(s1, x, y)
    requires forall y :: Spent(s1, u, y)
    requires forall y :: y in s1.sessions ==> ValidWindow(s1.sessions[y].opener.window)
    ensures UpsOnce(h1, s1)
  {
    forall i, j | 0 <= i < j < |h1.ups|
      ensures h1.ups[i].body != h1.ups[j].body
    {
      assert h.ups[i] in h.ups;
      assert Spent(s0, h.ups[i], sid);
    }
  }

  lemma OneMore(h: History, h1: History, s0: S.Server, o: S.ServerOutcome, event: S.ServerEvent, draws: S.ServerDraws)
    returns (u: Up, sid: SessionId)
    requires h1 == AfterServer(h, s0, event, draws.conv, o) && h1.ups != h.ups
    requires o.reply.Ok? ==> SE.ActionsSound(s0, o.server, o.reply.actions, event)
    requires SW.DeliversOnce(s0, o, event)
    ensures event.TunnelFrame? && event.frame.RecordMsg? && h1.ups == h.ups + [u] && u.body == event.frame.body
    ensures SE.DeliveredFor(s0, o.server, sid, u.conv, u.payload, event)
    ensures SW.Admits(s0.sessions[sid].opener.window, o.server.sessions[sid].opener.window, event)
  {
    var actions := ActionsOf(o.reply);
    UpsCounted(actions, event.frame.body);
    assert UpsOf(actions, event.frame.body) != [];
    u := UpsOf(actions, event.frame.body)[0];
    assert UpsOf(actions, event.frame.body) == [u];
    sid := UpAction(actions, event.frame.body, u);
  }

  lemma UpsOnceKept(env: S.ServerEnv, h: History, h1: History, s0: S.Server, o: S.ServerOutcome,
                    event: S.ServerEvent, draws: S.ServerDraws)
    requires h1 == AfterServer(h, s0, event, draws.conv, o) && HistoryGrows(h, h1)
    requires TS.Linked(env, h, s0, o.server, event, draws)
    requires o.reply.Ok? ==> SE.ActionsSound(s0, o.server, o.reply.actions, event)
    requires SW.WindowSound(env, s0, o, event)
    requires UpsOnce(h, s0) && env.cfg.replayWindowSize > 0
    ensures UpsOnce(h1, o.server)
  {
    WindowsValid(env, s0, o.server, event);
    AllStillSpent(env, h, s0, o.server, event, draws);
    if h1.ups != h.ups {
      var u, sid := OneMore(h, h1, s0, o, event, draws);
      NewlySpent(env, h, s0, o.server, event, draws, u, sid);
      UpsOnceMore(h, h1, s0, o.server, u, sid);
    } else {
      SameUps(h, h1, s0, o.server);
    }
  }

  lemma SameUps(h: History, h1: History, s0: S.Server, s1: S.Server)
    requires UpsOnce(h, s0) && HistoryGrows(h, h1) && h1.ups == h.ups
    requires forall u, sid :: u in h.ups ==> Spent(s1, u, sid)
    requires forall sid :: sid in s1.sessions ==> ValidWindow(s1.sessions[sid].opener.window)
    ensures UpsOnce(h1, s1)
  {
  }

  // ---------------------------------------------------------------- to the local peers, at most once

  ghost predicate DownSpent(c: C.Client, d: Down) {
    d.body.Sealed? && c.session.Some? && c.session.value.opener.key == d.body.key ==>
      d.body.header.number in c.session.value.opener.window.seen
  }

  /** The record was addressed to a handle that the client had given out. */
  ghost predicate Addressed(h: History, d: Down) {
    d.body.Sealed? && d.body.header.handle.Some? && (d.body.key.session, d.body.header.handle.value) in h.owner
  }

  ghost predicate DownsOnce(h: History, c: C.Client) {
    && (c.session.Some? ==> ValidWindow(c.session.value.opener.window))
    && (forall i, j :: 0 <= i < j < |h.downs| ==> h.downs[i].body != h.downs[j].body)
    && (forall d :: d in h.downs ==> Addressed(h, d) && DownSpent(c, d))
  }

  lemma DownStillSpent(env: C.ClientEnv, h: History, c0: C.Client, c1: C.Client, event: C.ClientEvent, d: Down)
    requires CI.ClientInv(env, c0) && CI.ClientInv(env, c1) && ClientLink(h, c0)
    requires CS.SessionEvolves(c0, c1) && CW.WindowMoves(env, c0, c1, event)
    requires Addressed(h, d) && DownSpent(c0, d)
    ensures DownSpent(c1, d)
  {
  }

  lemma NewlyDownSpent(env: C.ClientEnv, h: History, c0: C.Client, c1: C.Client, event: C.ClientEvent, d: Down)
    requires c0.session.Some? && c1.session.Some? && KnownSound(h)
    requires CI.SessionSound(env, c0.session.value, c0.byId)
    requires CS.Delivers(c0, event, d.localPeer, d.payload) && d.body == event.frame.body && Deliverable(event.frame, h.known)
    requires CW.Admits(c0.session.value.opener.window, c1.session.value.opener.window, event)
    requires ValidWindow(c0.session.value.opener.window)
    ensures Addressed(h, d) && !DownSpent(c0, d) && DownSpent(c1, d)
  {
    TC.AuthenticKnown(h, c0.session.value.opener, event.frame);
  }

  lemma OneMoreDown(h: History, h1: History, c0: C.Client, o: C.ClientOutcome, event: C.ClientEvent) returns (d: Down)
    requires h1 == AfterClient(h, event, o) && h1.downs != h.downs
    requires o.reply.Ok? ==> CS.DeliveriesSound(c0, event, o.reply.actions)
    requires CW.DeliversOnce(c0, o, event)
    ensures event.TunnelFrame? && event.frame.RecordMsg? && h1.downs == h.downs + [d] && d.body == event.frame.body
    ensures CS.Delivers(c0, event, d.localPeer, d.payload) && c0.session.Some? && o.client.session.Some?
    ensures CW.Admits(c0.session.value.opener.window, o.client.session.value.opener.window, event)
  {
    var actions := ActionsOf(o.reply);
    var body := event.frame.body;
    assert DownsOf(actions, body) != [];
    d := DownsOf(actions, body)[0];
    DownAction(actions, body, d);
    assert DownsOf(actions[1..], body) == [];
    assert DownsOf(actions, body) == [d];
  }

  lemma DownsOnceMore(h: History, h1: History, c0: C.Client, c1: C.Client, d: Down)
    requires DownsOnce(h, c0) && HistoryGrows(h, h1) && h1.downs == h.downs + [d]
    requires Addressed(h, d) && !DownSpent(c0, d) && DownSpent(c1, d)
    requires forall x :: x in h.downs ==> DownSpent(c1, x)
    requires c1.session.Some? ==> ValidWindow(c1.session.value.opener.window)
    ensures DownsOnce(h1, c1)
  {
    forall i, j | 0 <= i < j < |h1.downs|
      ensures h1.downs[i].body != h1.downs[j].body
    {
      assert h.downs[i] in h.downs;
      assert DownSpent(c0, h.downs[i]);
    }
  }

  lemma SameDowns(h: History, h1: History, c0: C.Client, c1: C.Client)
    requires DownsOnce(h, c0) && HistoryGrows(h, h1) && h1.downs == h.downs
    requires forall x :: x in h.downs ==> DownSpent(c1, x)
    requires c1.session.Some? ==> ValidWindow(c1.session.value.opener.window)
    ensures DownsOnce(h1, c1)
  {
  }

  lemma DownsOnceKept(env: C.ClientEnv, h: History, h1: History, c0: C.Client, o: C.ClientOutcome,
                      event: C.ClientEvent, draws: C.ClientDraws)
    requires TC.Setting(env, h, h1, c0, o, event, draws) && CW.WindowSound(env, c0, o, event)
    requires DownsOnce(h, c0) && env.cfg.replayWindowSize > 0
    ensures DownsOnce(h1, o.client)
  {
    forall d | d in h.downs
      ensures DownSpent(o.client, d)
    {
      DownStillSpent(env, h, c0, o.client, event, d);
    }
    if h1.downs != h.downs {
      var d := OneMoreDown(h, h1, c0, o, event);
      NewlyDownSpent(env, h, c0, o.client, event, d);
      DownsOnceMore(h, h1, c0, o.client, d);
    } else {
      SameDowns(h, h1, c0, o.client);
    }
  }

  // ---------------------------------------------------------------- one handshake per identifier

  ghost predicate SameSid(h: History, k1: SessionKey, k2: SessionKey) {
    k1 in h.accepted && k2 in h.accepted && k1.sid == k2.sid ==> k1 == k2
  }

  ghost predicate SidsUnique(h: History) {
    forall k1, k2 :: SameSid(h, k1, k2)
  }

  lemma SidsUniqueKept(env: S.ServerEnv, h: History, h1: History, s0: S.Server, o: S.ServerOutcome,
                       event: S.ServerEvent, draws: S.ServerDraws)
    requires h1.accepted == h.accepted + AcceptedBy(o.server, ActionsOf(o.reply))
    requires TS.Linked(env, h, s0, o.server, event, draws)
    requires o.reply.Ok? ==> SE.EstablishedSound(env, s0, o.server, o.reply.actions)
    requires SidsUnique(h)
    ensures SidsUnique(h1)
  {
    forall k1, k2
      ensures SameSid(h1, k1, k2)
    {
      assert SameSid(h, k1, k2);
      if k1 in h1.accepted && k2 in h1.accepted && k1.sid == k2.sid {
        if k1 !in h.accepted {
          var a := AcceptedAction(o.server, ActionsOf(o.reply), k1);
          assert SI.SessionSound(env, o.server.sessions[a.sid], a.sid);
        }
        if k2 !in h.accepted {
          var a := AcceptedAction(o.server, ActionsOf(o.reply), k2);
          assert SI.SessionSound(env, o.server.sessions[a.sid], a.sid);
        }
      }
    }
  }
}
