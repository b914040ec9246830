/** A run of the service in which a reply ends the receiver of a live route: right after
    a resumption the conversation has no handle yet, and the engine refuses what
    arrives for it. */
module RouteExample {
  import opened Base
  import opened Messages
  import opened Routes
  import opened RouteTheorems
  import opened Tunnel
  import opened TunnelExample
  import S = ServerSpec
  import SI = ServerInvariants
  import SS = ServerSteps
  import TL = TunnelLoss

  ghost predicate Stands(env: S.ServerEnv, inputs: seq<Input>, v: Service)
    requires env.cfg.rateRefillInterval > 0
  {
    ValidInputs(env, inputs) && ServiceRun(env, inputs) == v
  }

  lemma OneMore(env: S.ServerEnv, inputs: seq<Input>, v: Service, i: Input)
    requires env.cfg.rateRefillInterval > 0 && Stands(env, inputs, v) && ValidInput(env, v, i)
    ensures Stands(env, inputs + [i], ServiceStep(env, v, i))
  {
    assert (inputs + [i])[..|inputs|] == inputs;
  }

  function Hosts(n: nat, socket: Option<Socket>, order: seq<ConvId>, at: nat): seq<HostDraws> {
    seq(n, i => if i == at then HostDraws(socket, order, true) else HostDraws(None, [], true))
  }

  /** An event whose actions leave the table alone. */
  lemma Neutrally(env: S.ServerEnv, before: seq<Input>, v: Service, event: S.ServerEvent, draws: S.ServerDraws)
    returns (inputs: seq<Input>)
    requires env.cfg.rateRefillInterval > 0 && Stands(env, before, v) && v.up && event.TunnelFrame? && SS.ValidDraws(v.server, draws)
    requires S.RefreshesAll(v.server, event, draws)
    requires var r := S.ServerStep(env, v.server, event, 0, draws).reply; r.Ok? && forall a :: a in r.actions ==> Neutral(a)
    ensures Stands(env, inputs, Service(S.ServerStep(env, v.server, event, 0, draws).server, v.table, true))
  {
    hide Stands, S.ServerStep;
    var o := S.ServerStep(env, v.server, event, 0, draws);
    var hosts := Hosts(|o.reply.actions|, None, [], 0);
    ExecuteNeutral(v.table, o.reply.actions, hosts);
    assert forall i :: 0 <= i < |o.reply.actions| ==> Neutral(o.reply.actions[i]);
    OneMore(env, before, v, Event(event, 0, draws, hosts));
    inputs := before + [Event(event, 0, draws, hosts)];
  }

  function Empty(): Table {
    Table(map[], map[])
  }

  function One(sid: SessionId, running: bool): Table {
    Table(map[(sid, 100) := 77], map[(sid, 100) := Task(77, running)])
  }

  lemma Unheld(s: S.Server, draw: Option<ConvId>)
    requires s.resumable == map[] && (draw.Some? ==> forall sid :: sid in s.sessions ==> draw.value !in s.sessions[sid].conversations)
    ensures SI.FreshConv(s, draw)
  {
  }

  lemma FirstSession(env: Env) returns (inputs: seq<Input>)
    requires Example(env)
    ensures Stands(env.server, inputs, Service(TL.Server2(env), Empty(), true))
  {
    hide Stands, S.ServerStep;
    inputs := Begun(env);
    if env.server.cfg.requireHandshakeCookie {
      var asks := SDraws([], None, None, [], []);
      ServerAsks(env, S.NewServer(), FirstBare(env), asks, 0);
      inputs := Neutrally(env.server, inputs, Service(S.NewServer(), Empty(), true), S.TunnelFrame(5, HelloMsg(FirstBare(env))), asks);
    }
    var hears := SDraws([10], Some(S.ServerRandom(1, 1)), None, [], []);
    ServerHears(env);
    inputs := Neutrally(env.server, inputs, Service(Server0(env), Empty(), true), S.TunnelFrame(5, HelloMsg(FirstHello(env))), hears);
    var accepts := SDraws([], None, None, [], [10]);
    ServerAccepts(env);
    inputs := Neutrally(env.server, inputs, Service(TL.Server1(env), Empty(), true), S.TunnelFrame(5, TL.FirstFinish(env)), accepts);
  }

  lemma Begun(env: Env) returns (inputs: seq<Input>)
    requires Example(env)
    ensures Stands(env.server, inputs, Service(S.NewServer(), Empty(), true))
  {
    inputs := [];
  }

  /** The first datagram gets its route. */
  lemma Routed(env: Env) returns (inputs: seq<Input>)
    requires Example(env)
    ensures Stands(env.server, inputs, Service(TL.Server3(env), One(10, true), true))
  {
    hide Stands, S.ServerStep;
    inputs := FirstSession(env);
    var event, draws := S.TunnelFrame(5, FirstData(env)), SDraws([], None, Some(100), [100], []);
    ServerOpens(env);
    Unheld(TL.Server2(env), Some(100));
    var v := Service(TL.Server2(env), Empty(), true);
    var actions := S.ServerStep(env.server, v.server, event, 0, draws).reply.actions;
    var hosts := Hosts(4, Some(77), [], 2);
    Delivers(actions, hosts);
    OneMore(env.server, inputs, v, Event(event, 0, draws, hosts));
    inputs := inputs + [Event(event, 0, draws, hosts)];
  }

  lemma Delivers(actions: seq<Action>, hosts: seq<HostDraws>)
    requires |actions| == 4 && hosts == Hosts(4, Some(77), [], 2)
    requires Neutral(actions[0]) && Neutral(actions[1]) && actions[2] == DeliverToUpstream(10, 100, []) && Neutral(actions[3])
    ensures Execute(Empty(), actions, hosts) == Executed(One(10, true), true)
    ensures ValidHost(Empty(), actions, hosts)
  {
    ExecuteNeutral(Empty(), actions[..2], hosts[..2]);
    assert actions[..2] + actions[2..] == actions && hosts[..2] + hosts[2..] == hosts;
    ExecuteConcat(Empty(), actions[..2], actions[2..], hosts[..2], hosts[2..]);
    assert actions[2..][1..] == actions[3..] && hosts[2..][1..] == hosts[3..];
    ExecuteNeutral(One(10, true), actions[3..], hosts[3..]);
  }

  lemma SecondHello(env: Env) returns (inputs: seq<Input>)
    requires Example(env)
    ensures Stands(env.server, inputs, Service(Resuming(env), One(10, true), true))
  {
    hide Stands, S.ServerStep;
    inputs := Routed(env);
    if env.server.cfg.requireHandshakeCookie {
      var asks := SDraws([], None, None, [], []);
      ServerAsks(env, TL.Server3(env), SecondBare(env), asks, 2);
      inputs := Neutrally(env.server, inputs, Service(TL.Server3(env), One(10, true), true), S.TunnelFrame(5, HelloMsg(SecondBare(env))), asks);
    }
    var hears := SDraws([20], Some(S.ServerRandom(2, 2)), None, [], []);
    ServerHearsAgain(env);
    inputs := Neutrally(env.server, inputs, Service(TL.Server4(env), One(10, true), true),
                        S.TunnelFrame(5, HelloMsg(TunnelExample.SecondHello(env))), hears);
  }

  /** The resumption moves the route and starts its task anew. */
  lemma Moved(env: Env) returns (inputs: seq<Input>)
    requires Example(env)
    ensures Stands(env.server, inputs, Service(SecondUp(env), One(20, true), true))
  {
    hide Stands, S.ServerStep;
    inputs := SecondHello(env);
    var event, draws := S.TunnelFrame(5, TL.SecondFinish(env)), SDraws([], None, None, [], [20]);
    ServerResumes(env);
    var v := Service(Resuming(env), One(10, true), true);
    var hosts := Hosts(4, None, [100], 2);
    Resumes(env, hosts);
    OneMore(env.server, inputs, v, Event(event, 0, draws, hosts));
    inputs := inputs + [Event(event, 0, draws, hosts)];
  }

  lemma Resumes(env: Env, hosts: seq<HostDraws>)
    requires hosts == Hosts(4, None, [100], 2)
    ensures var actions := S.FinishActions(env.server, Pends(env, SecondKey(env), Some(10)), 20, 5);
            && |actions| == 4 && Execute(One(10, true), actions, hosts) == Executed(One(20, true), true)
            && ValidHost(One(10, true), actions, hosts)
  {
    var actions := S.FinishActions(env.server, Pends(env, SecondKey(env), Some(10)), 20, 5);
    ResumedRoutes(One(10, true), actions, hosts, 10, 20);
    assert [100][1..] == [];
    assert MoveAll(One(10, true), 10, 20, [100]) == MoveRoute(One(10, true), 10, 20, 100);
    assert MoveRoute(One(10, true), 10, 20, 100) == One(20, true);
    assert RoutedUnder(One(10, true), 10) == {100};
  }

  /** A reply in that moment is refused; the route stays, its conversation is live,
      and its task has ended. */
  lemma ReplyEndsTask(env: Env) returns (inputs: seq<Input>, k: Key)
    requires Example(env)
    ensures ValidInputs(env.server, inputs)
    ensures var v := ServiceRun(env.server, inputs);
            && v.up && k in v.table.routes && k.1 in SI.Held(v.server, k.0)
            && k in v.table.tasks && !v.table.tasks[k].running
    ensures inputs != [] && inputs[|inputs| - 1] == Received(k, Some([]), 0)
    ensures k.0 in ServiceRun(env.server, inputs[..|inputs| - 1]).server.sessions
    ensures k.1 !in ServiceRun(env.server, inputs[..|inputs| - 1]).server.sessions[k.0].handles.byId
  {
    inputs := Moved(env);
    k := (20, 100);
    var v := Service(SecondUp(env), One(20, true), true);
    OneMore(env.server, inputs, v, Received(k, Some([]), 0));
    assert Receive(env.server, v, k, Some([]), 0) == Service(SecondUp(env), One(20, false), true);
    assert (inputs + [Received(k, Some([]), 0)])[..|inputs|] == inputs;
    inputs := inputs + [Received(k, Some([]), 0)];
  }
}
