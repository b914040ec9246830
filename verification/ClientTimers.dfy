/** How long a client handshake can last, and how often its timer resends. */
module ClientTimers {
  import opened Base
  import opened Messages
  import opened Sessions
  import opened ClientSpec
  import opened ClientInvariants
  import CS = ClientSteps
  import CT = ClientTheorems

  datatype Input = Input(event: ClientEvent, now: Time, draws: ClientDraws)

  /** A client with the start of its handshake, and how many frames the timer has
      resent since. */
  datatype Tracked = Tracked(client: Client, began: Time, resent: nat)

  /** The frames a tick sends. */
  function Resent(event: ClientEvent, reply: Reply): nat {
    if event.TimeAdvanced? && reply.Ok? then Sends(reply.actions) else 0
  }

  function Sends(actions: seq<Action>): nat {
    if actions == [] then 0 else (if actions[0].SendFrame? then 1 else 0) + Sends(actions[1..])
  }

  function Track(env: ClientEnv, t: Tracked, i: Input): Tracked
    requires env.cfg.sessionTimeout > 0
  {
    var o := ClientStep(env, t.client, i.event, i.now, i.draws);
    if t.client.handshake.None? then Tracked(o.client, i.now, 0)
    else Tracked(o.client, t.began, t.resent + Resent(i.event, o.reply))
  }

  function RunOf(env: ClientEnv, inputs: seq<Input>): Tracked
    requires env.cfg.sessionTimeout > 0
  {
    if inputs == [] then Tracked(NewClient(), 0, 0)
    else Track(env, RunOf(env, inputs[..|inputs| - 1]), inputs[|inputs| - 1])
  }

  ghost predicate ValidInputs(env: ClientEnv, inputs: seq<Input>)
    requires env.cfg.sessionTimeout > 0
  {
    inputs != [] ==>
      && ValidInputs(env, inputs[..|inputs| - 1])
      && CS.ValidDraws(RunOf(env, inputs[..|inputs| - 1]).client, inputs[|inputs| - 1].draws)
  }

  ghost predicate Timed(env: ClientEnv, t: Tracked) {
    && ClientInv(env, t.client)
    && (t.client.handshake.Some? ==>
          && t.client.handshake.value.startedAt == t.began
          && t.resent <= t.client.handshake.value.attempts - 1
          && t.resent <= env.cfg.handshakeMaxAttempts - 1)
  }

  // ---------------------------------------------------------------- one event

  lemma {:induction false} SendsConcat(a: seq<Action>, b: seq<Action>)
    ensures Sends(a + b) == Sends(a) + Sends(b)
  {
    if a == [] {
      assert a + b == b;
    } else {
      assert (a + b)[1..] == a[1..] + b;
      SendsConcat(a[1..], b);
    }
  }

  lemma {:induction false} SendsNothing(actions: seq<Action>)
    requires forall a :: a in actions ==> !a.SendFrame?
    ensures Sends(actions) == 0
  {
    if actions != [] {
      SendsNothing(actions[1..]);
    }
  }

  /** A tick resends at most one frame, and counts it. */
  ghost predicate Ticks(env: ClientEnv, c: Client, c1: Client, sent: nat) {
    c1.handshake.Some? ==>
      && c.handshake.Some?
      && c1.handshake.value.startedAt == c.handshake.value.startedAt
      && c1.handshake.value.attempts == c.handshake.value.attempts + sent
      && (sent > 0 ==> sent == 1 && c.handshake.value.attempts < env.cfg.handshakeMaxAttempts)
  }

  lemma HandshakeTicks(env: ClientEnv, c: Client, now: Time)
    requires ClientInv(env, c)
    ensures var p := ExpireHandshake(env, c, now);
            Ticks(env, c, p.client, Sends(p.actions))
  {
    var p := ExpireHandshake(env, c, now);
    if p.client.handshake.Some? && p.actions != [] {
      assert p.actions == [p.actions[0]] + [p.actions[1]];
      SendsConcat([p.actions[0]], [p.actions[1]]);
      assert Sends([p.actions[0]]) == 1 && Sends([p.actions[1]]) == 0;
    }
  }

  lemma TickResends(env: ClientEnv, c: Client, now: Time, draws: ClientDraws)
    requires ClientInv(env, c)
    ensures var r := Expire(env, c, now, draws);
            Ticks(env, c, r.client, Sends(r.actions))
  {
    var p := ExpireHandshake(env, c, now);
    var q := ExpireQueue(env, p.client, now);
    var r := ExpireConversations(env, q.client, now, draws.order);
    HandshakeTicks(env, c, now);
    CT.ExpireHandshakeKeeps(env, c, now);
    CT.ExpireQueueKeeps(env, p.client, now);
    CT.ExpireConversationsKeeps(env, q.client, now, draws.order);
    SendsNothing(q.actions);
    SendsNothing(r.actions);
    SendsConcat(p.actions, q.actions);
    SendsConcat(p.actions + q.actions, r.actions);
  }

  /** Without a tick a handshake keeps its start and its count does not fall; a
      new one starts now. */
  ghost predicate Keeps(c: Client, c1: Client, now: Time) {
    c1.handshake.Some? ==>
      if c.handshake.Some? then
        && c1.handshake.value.startedAt == c.handshake.value.startedAt
        && c1.handshake.value.attempts >= c.handshake.value.attempts
      else c1.handshake.value.startedAt == now && c1.handshake.value.attempts == 1
  }

  lemma HeadKeepsHandshake(env: ClientEnv, c: Client, now: Time, draws: ClientDraws, draw: Option<ConvId>)
    requires c.mode.Ready? && !Stale(env, c, now) && c.queue != []
    ensures FlushHead(env, c, now, draws, draw).client.handshake == c.handshake
  {
    hide Seal, Allocate;
  }

  lemma {:induction false} FlushKeepsHandshake(env: ClientEnv, c: Client, now: Time, draws: ClientDraws, convs: seq<Option<ConvId>>)
    requires c.mode.Ready? && !Stale(env, c, now)
    ensures Flush(env, c, now, draws, convs).client.handshake == c.handshake
    decreases |c.queue|
  {
    hide FlushHead;
    if c.queue != [] {
      HeadKeepsHandshake(env, c, now, draws, DrawAt(convs));
      FlushKeepsHandshake(env, FlushHead(env, c, now, draws, DrawAt(convs)).client, now, draws, DrawsAfter(convs));
    }
  }

  lemma AcceptAckEnds(env: ClientEnv, c: Client, session: ClientSession, now: Time, draws: ClientDraws)
    requires env.cfg.sessionTimeout > 0
    ensures AcceptAck(env, c, session, now, draws).client.handshake.None?
  {
    var c1 := Acknowledged(c, session, now);
    RebindKeeps(env, c1.session.value, c1.byPeer, draws.order);
    var r := if session.resumed then Rebind(env, c1.session.value, c1.byPeer, draws.order)
             else ReboundOk(c1.session.value, []);
    if r.ReboundOk? {
      FlushKeepsHandshake(env, c1.(session := Some(r.session)), now, draws, draws.convs);
    }
  }

  lemma FrameKeeps(env: ClientEnv, c: Client, from: PeerId, frame: Frame, now: Time, draws: ClientDraws)
    requires ClientInv(env, c) && env.cfg.sessionTimeout > 0
    ensures Keeps(c, HandleTunnel(env, c, from, frame, now, draws).client, now)
  {
    hide AcceptAck, SessionSound, Tables;
    if from == env.serverPeer && frame.RecordMsg? && c.session.Some? {
      var o := Open(c.session.value.opener, frame);
      if o.OpenOk? {
        var session := c.session.value.(opener := o.opener);
        AcceptAckEnds(env, c.(session := Some(session)), session, now, draws);
      }
    }
  }

  lemma LocalKeeps(env: ClientEnv, c: Client, d: Datagram, now: Time, draws: ClientDraws)
    requires IsHandshaking(c) <==> c.handshake.Some?
    ensures Keeps(c, HandleLocal(env, c, d, now, DrawAt(draws.convs), draws).client, now)
  {
  }

  lemma EventKeeps(env: ClientEnv, c: Client, event: ClientEvent, now: Time, draws: ClientDraws)
    requires ClientInv(env, c) && env.cfg.sessionTimeout > 0 && !event.TimeAdvanced?
    ensures Keeps(c, ClientStep(env, c, event, now, draws).client, now)
  {
    match event
    case TunnelFrame(from, frame) => FrameKeeps(env, c, from, frame, now, draws);
    case ClientDatagram(d) => LocalKeeps(env, c, d, now, draws);
    case _ =>
  }

  // ---------------------------------------------------------------- whole runs

  lemma TickTimed(env: ClientEnv, t: Tracked, c1: Client, sent: nat)
    requires Timed(env, t) && ClientInv(env, c1) && Ticks(env, t.client, c1, sent)
    ensures t.client.handshake.Some? ==> Timed(env, Tracked(c1, t.began, t.resent + sent))
    ensures t.client.handshake.None? ==> c1.handshake.None?
  {
  }

  lemma EventTimed(env: ClientEnv, t: Tracked, c1: Client, now: Time)
    requires Timed(env, t) && ClientInv(env, c1) && Keeps(t.client, c1, now) && env.cfg.handshakeMaxAttempts > 0
    ensures Timed(env, if t.client.handshake.None? then Tracked(c1, now, 0) else Tracked(c1, t.began, t.resent))
  {
  }

  lemma TrackTimed(env: ClientEnv, t: Tracked, i: Input)
    requires Timed(env, t) && CS.ClientLimits(env) && CS.ValidDraws(t.client, i.draws)
    ensures Timed(env, Track(env, t, i))
  {
    hide ClientInv, CS.StepSound;
    var o := ClientStep(env, t.client, i.event, i.now, i.draws);
    CT.ClientStepKeeps(env, t.client, i.event, i.now, i.draws);
    if i.event.TimeAdvanced? {
      TickResends(env, t.client, i.event.at, i.draws);
      TickTimed(env, t, o.client, Sends(o.reply.actions));
    } else {
      EventKeeps(env, t.client, i.event, i.now, i.draws);
      EventTimed(env, t, o.client, i.now);
    }
  }

  lemma {:induction false} RunTimed(env: ClientEnv, inputs: seq<Input>)
    requires CS.ClientLimits(env) && ValidInputs(env, inputs)
    ensures Timed(env, RunOf(env, inputs))
    decreases |inputs|
  {
    if inputs == [] {
      CT.NewClientInv(env);
    } else {
      RunTimed(env, inputs[..|inputs| - 1]);
      TrackTimed(env, RunOf(env, inputs[..|inputs| - 1]), inputs[|inputs| - 1]);
    }
  }

  /** In every run the timer resends at most `handshake_max_attempts - 1` frames
      of one handshake, and the first tick at or past the handshake's deadline
      ends it, with its session and its queue. */
  lemma HandshakeBounded(env: ClientEnv, inputs: seq<Input>, at: Time, draws: ClientDraws)
    requires CS.ClientLimits(env) && ValidInputs(env, inputs)
    requires RunOf(env, inputs).client.handshake.Some?
    ensures RunOf(env, inputs).resent <= env.cfg.handshakeMaxAttempts - 1
    ensures at >= RunOf(env, inputs).began + env.cfg.handshakeTimeout ==>
              var c := Expire(env, RunOf(env, inputs).client, at, draws).client;
              c.mode.Closed? && c.handshake.None? && c.session.None? && c.queue == []
  {
    RunTimed(env, inputs);
    var t := RunOf(env, inputs);
    if at >= t.began + env.cfg.handshakeTimeout {
      var p := ExpireHandshake(env, t.client, at);
      CT.ExpireHandshakeKeeps(env, t.client, at);
      CT.ExpireQueueKeeps(env, p.client, at);
      CT.ExpireConversationsKeeps(env, ExpireQueue(env, p.client, at).client, at, draws.order);
    }
  }
}
