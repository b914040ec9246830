/** What becomes of the datagrams a client accepts. */
module ClientConservation {
  import opened Base
  import opened Messages
  import opened Sessions
  import opened ClientSpec
  import opened ClientInvariants

  /** The datagrams in the reconnect queue, in order. */
  function Waiting(queue: seq<Queued>): seq<Datagram> {
    if queue == [] then [] else [queue[0].datagram] + Waiting(queue[1..])
  }

  /** The datagrams whose fate has been decided, in order. */
  function Settled(fates: seq<Fate>): seq<Datagram> {
    if fates == [] then [] else [fates[0].datagram] + Settled(fates[1..])
  }

  /** The datagram an event hands over, if the event succeeds. */
  function Arrived(event: ClientEvent, reply: Reply): seq<Datagram> {
    if event.ClientDatagram? && reply.Ok? then [event.datagram] else []
  }

  /** The event's datagram found the queue full. */
  predicate Overflows(env: ClientEnv, c0: Client, event: ClientEvent, o: ClientOutcome) {
    && event.ClientDatagram? && o.reply.Ok?
    && o.fates == [Lost(event.datagram, ReconnectQueueFull)]
    && o.client.queue == c0.queue && |c0.queue| >= env.cfg.reconnectQueueCapacity
  }

  /** First in, first out: those whose fate an event decides are the first of the
      line, and the rest of the line keeps waiting in order; only a datagram that
      finds the queue full is turned away at its end. */
  ghost predicate Conserves(env: ClientEnv, c0: Client, event: ClientEvent, o: ClientOutcome) {
    || Settled(o.fates) + Waiting(o.client.queue) == Waiting(c0.queue) + Arrived(event, o.reply)
    || Overflows(env, c0, event, o)
  }

  /** The data records among the frames of a reply. */
  function DataFrames(actions: seq<Action>): seq<Frame> {
    if actions == [] then []
    else (if actions[0].SendFrame? && actions[0].frame.RecordMsg? && actions[0].frame.header.ftype.Data?
          then [actions[0].frame] else []) + DataFrames(actions[1..])
  }

  function CarriedFrames(fates: seq<Fate>): seq<Frame> {
    if fates == [] then []
    else (if fates[0].Carried? then [fates[0].frame] else []) + CarriedFrames(fates[1..])
  }

  /** The drops a reply reports. */
  function Drops(actions: seq<Action>): seq<(LocalPeer, DropReason)> {
    if actions == [] then []
    else (if actions[0].DatagramDropped? then [(actions[0].localPeer, actions[0].reason)] else []) + Drops(actions[1..])
  }

  function LostDrops(fates: seq<Fate>): seq<(LocalPeer, DropReason)> {
    if fates == [] then []
    else (if fates[0].Lost? then [(fates[0].datagram.localPeer, fates[0].reason)] else []) + LostDrops(fates[1..])
  }

  /** Every fate shows in the reply exactly once: a data record for a datagram
      that was carried, a drop report for one that was lost. */
  ghost predicate Shows(actions: seq<Action>, fates: seq<Fate>) {
    DataFrames(actions) == CarriedFrames(fates) && Drops(actions) == LostDrops(fates)
  }

  ghost predicate Reported(o: ClientOutcome) {
    if o.reply.Ok? then Shows(o.reply.actions, o.fates) else o.fates == []
  }

  // ---------------------------------------------------------------- concatenation

  lemma {:induction false} SettledConcat(a: seq<Fate>, b: seq<Fate>)
    ensures Settled(a + b) == Settled(a) + Settled(b)
  {
    if a == [] {
      assert a + b == b;
    } else {
      assert (a + b)[1..] == a[1..] + b;
      SettledConcat(a[1..], b);
    }
  }

  lemma {:induction false} WaitingConcat(a: seq<Queued>, b: seq<Queued>)
    ensures Waiting(a + b) == Waiting(a) + Waiting(b)
  {
    if a == [] {
      assert a + b == b;
    } else {
      assert (a + b)[1..] == a[1..] + b;
      WaitingConcat(a[1..], b);
    }
  }

  lemma {:induction false} ActionsConcat(a: seq<Action>, b: seq<Action>)
    ensures DataFrames(a + b) == DataFrames(a) + DataFrames(b)
    ensures Drops(a + b) == Drops(a) + Drops(b)
  {
    if a == [] {
      assert a + b == b;
    } else {
      assert (a + b)[1..] == a[1..] + b;
      ActionsConcat(a[1..], b);
    }
  }

  lemma {:induction false} CarriedConcat(a: seq<Fate>, b: seq<Fate>)
    ensures CarriedFrames(a + b) == CarriedFrames(a) + CarriedFrames(b)
  {
    if a == [] {
      assert a + b == b;
    } else {
      assert (a + b)[0] == a[0] && (a + b)[1..] == a[1..] + b;
      CarriedConcat(a[1..], b);
    }
  }

  lemma {:induction false} LostConcat(a: seq<Fate>, b: seq<Fate>)
    ensures LostDrops(a + b) == LostDrops(a) + LostDrops(b)
  {
    if a == [] {
      assert a + b == b;
    } else {
      assert (a + b)[1..] == a[1..] + b;
      LostConcat(a[1..], b);
    }
  }

  lemma ShowsConcat(a1: seq<Action>, a2: seq<Action>, f1: seq<Fate>, f2: seq<Fate>)
    requires Shows(a1, f1) && Shows(a2, f2)
    ensures Shows(a1 + a2, f1 + f2)
  {
    ActionsConcat(a1, a2);
    CarriedConcat(f1, f2);
    LostConcat(f1, f2);
  }

  lemma {:induction false} Mute(actions: seq<Action>)
    requires forall a :: a in actions ==>
               !a.DatagramDropped? && (a.SendFrame? && a.frame.RecordMsg? ==> !a.frame.header.ftype.Data?)
    ensures Shows(actions, [])
  {
    if actions != [] {
      Mute(actions[1..]);
    }
  }

  // ---------------------------------------------------------------- the queue

  lemma {:induction false} DropAllShows(queue: seq<Queued>, reason: DropReason)
    ensures Settled(LostAll(queue, reason)) == Waiting(queue)
    ensures Shows(DropAll(queue, reason), LostAll(queue, reason))
  {
    if queue != [] {
      DropAllShows(queue[1..], reason);
      assert LostAll(queue, reason)[1..] == LostAll(queue[1..], reason);
      assert DropAll(queue, reason)[1..] == DropAll(queue[1..], reason);
    }
  }

  /** A part of an event that settles the first datagrams of a line. */
  ghost predicate Settles(queue: seq<Queued>, p: Progress) {
    Settled(p.fates) + Waiting(p.client.queue) == Waiting(queue) && Shows(p.actions, p.fates)
  }

  lemma ExpireQueueSettles(env: ClientEnv, c: Client, now: Time)
    ensures Settles(c.queue, ExpireQueue(env, c, now))
  {
    var n := ExpiredPrefix(env, c.queue, now);
    var timer := if c.queue[n..] != [] then [ScheduleTimer(env.cfg.reconnectQueueTimeout)] else [];
    DropAllShows(c.queue[..n], ReconnectQueueExpired);
    Mute(timer);
    ShowsConcat(DropAll(c.queue[..n], ReconnectQueueExpired), timer, LostAll(c.queue[..n], ReconnectQueueExpired), []);
    assert LostAll(c.queue[..n], ReconnectQueueExpired) + [] == LostAll(c.queue[..n], ReconnectQueueExpired);
    WaitingConcat(c.queue[..n], c.queue[n..]);
    assert c.queue[..n] + c.queue[n..] == c.queue;
  }

  lemma ExpireHandshakeSettles(env: ClientEnv, c: Client, now: Time)
    requires IsHandshaking(c) && c.handshake.Some? ==> HandshakeSound(env, c.handshake.value, c.session)
    ensures Settles(c.queue, ExpireHandshake(env, c, now))
  {
    var p := ExpireHandshake(env, c, now);
    if IsHandshaking(c) && c.handshake.Some? && HandshakeOver(env, c.handshake.value, now) {
      var closed := if c.session.Some? then [SessionClosed(env.serverPeer, c.session.value.id)] else [];
      DropAllShows(c.queue, ConnectionClosed);
      Mute(closed);
      ShowsConcat(DropAll(c.queue, ConnectionClosed), closed, p.fates, []);
      assert p.fates + [] == p.fates;
    } else {
      Mute(p.actions);
    }
  }

  lemma {:induction false} ExpireConversationsMute(env: ClientEnv, c: Client, now: Time, order: seq<LocalPeer>)
    ensures var p := ExpireConversations(env, c, now, order);
            p.fates == [] && p.client.queue == c.queue && Shows(p.actions, [])
    decreases |order|
  {
    if order != [] {
      if order[0] in c.byPeer && IdleConversation(env, c.byPeer[order[0]], now) {
        var id := c.byPeer[order[0]].id;
        var c1 := Forget(c, order[0], id);
        ExpireConversationsMute(env, c1, now, order[1..]);
        var rest := ExpireConversations(env, c1, now, order[1..]);
        ShowsConcat([ConversationClosed(CurrentSession(c), id)], rest.actions, [], []);
      } else {
        ExpireConversationsMute(env, c, now, order[1..]);
      }
    }
  }

  lemma ExpireSettles(env: ClientEnv, c: Client, now: Time, draws: ClientDraws)
    requires IsHandshaking(c) && c.handshake.Some? ==> HandshakeSound(env, c.handshake.value, c.session)
    ensures Settles(c.queue, Expire(env, c, now, draws))
  {
    var p := ExpireHandshake(env, c, now);
    var q := ExpireQueue(env, p.client, now);
    var r := ExpireConversations(env, q.client, now, draws.order);
    ExpireHandshakeSettles(env, c, now);
    ExpireQueueSettles(env, p.client, now);
    ExpireConversationsMute(env, q.client, now, draws.order);
    Chained(p, q, r);
  }

  lemma Chained(p: Progress, q: Progress, r: Progress)
    requires Shows(p.actions, p.fates) && Shows(q.actions, q.fates) && Shows(r.actions, []) && r.fates == []
    ensures Shows(p.actions + q.actions + r.actions, p.fates + q.fates + r.fates)
    ensures Settled(p.fates + q.fates + r.fates) == Settled(p.fates) + Settled(q.fates)
  {
    ShowsConcat(p.actions, q.actions, p.fates, q.fates);
    ShowsConcat(p.actions + q.actions, r.actions, p.fates + q.fates, r.fates);
    SettledConcat(p.fates, q.fates);
    assert p.fates + q.fates + r.fates == p.fates + q.fates;
  }

  // ---------------------------------------------------------------- sending

  lemma SendDataShows(env: ClientEnv, c: Client, d: Datagram, now: Time, draw: Option<ConvId>)
    ensures var o := SendData(env, c, d, now, draw);
            && o.client.queue == c.queue && Reported(o) && (o.reply.Ok? ==> Settled(o.fates) == [d])
  {
    var o := SendData(env, c, d, now, draw);
    if o.reply.Ok? {
      var opening := ConversationFor(env, c, d.localPeer, now, draw).actions;
      Mute(opening);
      var frame := o.fates[0].frame;
      var sent := [SendFrame(env.serverPeer, frame)];
      assert DataFrames(sent) == [frame] == CarriedFrames(o.fates);
      assert Drops(sent) == [] == LostDrops(o.fates);
      ShowsConcat(opening, sent, [], o.fates);
      assert [] + o.fates == o.fates;
    }
  }

  lemma FlushHeadSettles(env: ClientEnv, c: Client, now: Time, draws: ClientDraws, draw: Option<ConvId>)
    requires c.mode.Ready? && !Stale(env, c, now) && c.queue != []
    requires |c.queue[0].datagram.payload| <= env.cfg.maxFramePayload
    ensures var p := FlushHead(env, c, now, draws, draw);
            Settled(p.fates) == [c.queue[0].datagram] && Shows(p.actions, p.fates)
  {
    SendDataShows(env, c.(queue := c.queue[1..]), c.queue[0].datagram, now, draw);
  }

  /** Flushing settles the whole queue, front to back. */
  lemma {:induction false} FlushSettles(env: ClientEnv, c: Client, now: Time, draws: ClientDraws, convs: seq<Option<ConvId>>)
    requires c.mode.Ready? && !Stale(env, c, now)
    requires forall q :: q in c.queue ==> |q.datagram.payload| <= env.cfg.maxFramePayload
    ensures Settles(c.queue, Flush(env, c, now, draws, convs))
    decreases |c.queue|
  {
    if c.queue != [] {
      var head := FlushHead(env, c, now, draws, DrawAt(convs));
      FlushHeadSettles(env, c, now, draws, DrawAt(convs));
      FlushSettles(env, head.client, now, draws, DrawsAfter(convs));
      var rest := Flush(env, head.client, now, draws, DrawsAfter(convs));
      ShowsConcat(head.actions, rest.actions, head.fates, rest.fates);
      SettledConcat(head.fates, rest.fates);
    }
  }

  lemma BeginReconnectMute(env: ClientEnv, c: Client, now: Time, draws: ClientDraws)
    ensures var p := BeginReconnect(env, c, now, draws);
            p.fates == [] && p.client.queue == c.queue && Shows(p.actions, [])
  {
    Mute(BeginReconnect(env, c, now, draws).actions);
  }

  lemma EnqueueConserves(env: ClientEnv, c: Client, d: Datagram, now: Time)
    ensures var p := Enqueue(env, c, d, now);
            && Shows(p.actions, p.fates)
            && (if |c.queue| >= env.cfg.reconnectQueueCapacity then
                  p.client.queue == c.queue && p.fates == [Lost(d, ReconnectQueueFull)]
                else p.fates == [] && Waiting(p.client.queue) == Waiting(c.queue) + [d])
  {
    WaitingConcat(c.queue, [Queued(d, now)]);
    assert Waiting([Queued(d, now)]) == [d];
  }

  lemma HandleLocalConserves(env: ClientEnv, c: Client, d: Datagram, now: Time, draw: Option<ConvId>, draws: ClientDraws)
    requires !IsHandshaking(c) ==> c.queue == []
    ensures var o := HandleLocal(env, c, d, now, draw, draws);
            Conserves(env, c, ClientDatagram(d), o) && Reported(o)
  {
    var o := HandleLocal(env, c, d, now, draw, draws);
    if |d.payload| > env.cfg.maxFramePayload {
    } else if c.mode.Ready? && Stale(env, c, now) {
      StaleConserves(env, c, d, now, draw, draws);
    } else if !c.mode.Ready? {
      EnqueueConserves(env, c, d, now);
    } else {
      SendDataShows(env, c, d, now, draw);
    }
  }

  lemma StaleConserves(env: ClientEnv, c: Client, d: Datagram, now: Time, draw: Option<ConvId>, draws: ClientDraws)
    requires c.mode.Ready? && Stale(env, c, now) && c.queue == [] && |d.payload| <= env.cfg.maxFramePayload
    ensures var o := HandleLocal(env, c, d, now, draw, draws);
            Conserves(env, c, ClientDatagram(d), o) && Reported(o)
  {
    var p := BeginReconnect(env, c, now, draws);
    BeginReconnectMute(env, c, now, draws);
    if IsHandshaking(p.client) {
      var q := Enqueue(env, p.client, d, now);
      EnqueueConserves(env, p.client, d, now);
      ShowsConcat(p.actions, q.actions, [], q.fates);
      assert [] + q.fates == q.fates;
    } else {
      var dropped := [DatagramDropped(d.localPeer, ConnectionClosed)];
      var lost := [Lost(d, ConnectionClosed)];
      assert Shows(dropped, lost);
      ShowsConcat(p.actions, dropped, [], lost);
      assert [] + lost == lost;
    }
  }

  // ---------------------------------------------------------------- records

  ghost predicate Quiet(actions: seq<Action>) {
    forall a :: a in actions ==>
      !a.DatagramDropped? && (a.SendFrame? && a.frame.RecordMsg? ==> !a.frame.header.ftype.Data?)
  }

  lemma AcceptAckConserves(env: ClientEnv, c: Client, session: ClientSession, now: Time, draws: ClientDraws)
    requires env.cfg.sessionTimeout > 0
    requires forall q :: q in c.queue ==> |q.datagram.payload| <= env.cfg.maxFramePayload
    ensures var o := AcceptAck(env, c, session, now, draws);
            && Settled(o.fates) + Waiting(o.client.queue) == Waiting(c.queue)
            && Reported(o)
  {
    var o := AcceptAck(env, c, session, now, draws);
    if o.reply.Ok? {
      var c1 := Acknowledged(c, session, now);
      RebindKeeps(env, c1.session.value, c1.byPeer, draws.order);
      ClosedAllCloses(c.byPeer, draws.order);
      var r := if session.resumed then Rebind(env, c1.session.value, c1.byPeer, draws.order)
               else ReboundOk(c1.session.value, []);
      var p := Flush(env, c1.(session := Some(r.session)), now, draws, draws.convs);
      FlushSettles(env, c1.(session := Some(r.session)), now, draws, draws.convs);
      var declined := c.handshake.Some? && c.handshake.value.hello.resumption.Some? && !session.resumed;
      var before := (if declined then ClosedAll(c.byPeer, draws.order) else [])
                    + [SessionEstablished(env.serverPeer, session.id, env.cfg.suite, session.resumed)] + r.actions;
      Around(before, p.actions, [ScheduleTimer(env.cfg.sessionTimeout)], p.fates);
    }
  }

  lemma Around(before: seq<Action>, actions: seq<Action>, after: seq<Action>, fates: seq<Fate>)
    requires Quiet(before) && Quiet(after) && Shows(actions, fates)
    ensures Shows(before + actions + after, fates)
  {
    Mute(before);
    Mute(after);
    ShowsConcat(before, actions, [], fates);
    ShowsConcat(before + actions, after, [] + fates, []);
    assert [] + fates + [] == fates;
  }

  lemma SettledNone(queue: seq<Queued>)
    ensures Settled([]) + Waiting(queue) == Waiting(queue)
  {
  }

  lemma HandleRecordConserves(env: ClientEnv, c: Client, frame: Frame, now: Time, draws: ClientDraws)
    requires env.cfg.sessionTimeout > 0
    requires forall q :: q in c.queue ==> |q.datagram.payload| <= env.cfg.maxFramePayload
    ensures var o := HandleRecord(env, c, frame, now, draws);
            Settled(o.fates) + Waiting(o.client.queue) == Waiting(c.queue) && Reported(o)
  {
    hide AcceptAck, Settled, Waiting, Shows;
    var o := HandleRecord(env, c, frame, now, draws);
    SettledNone(c.queue);
    if c.session.Some? && Open(c.session.value.opener, frame).OpenOk? && frame.header.ftype.HandshakeAck? && IsHandshaking(c) {
      var session := c.session.value.(opener := Open(c.session.value.opener, frame).opener);
      AcceptAckConserves(env, c.(session := Some(session)), session, now, draws);
    } else if o.reply.Ok? {
      Mute(o.reply.actions);
    }
  }

  lemma HandshakeMessageConserves(env: ClientEnv, c: Client, frame: Frame, now: Time, draws: ClientDraws)
    requires frame.RetryMsg? || frame.ServerHelloMsg?
    requires IsHandshaking(c) && c.handshake.Some? ==> HandshakeSound(env, c.handshake.value, c.session)
    ensures var o := if frame.RetryMsg? then HandleRetry(env, c, frame.retry, now)
                     else HandleServerHello(env, c, frame.sid, frame.serverHello, now, draws);
            o.client.queue == c.queue && o.fates == [] && Reported(o)
  {
    var o := if frame.RetryMsg? then HandleRetry(env, c, frame.retry, now)
             else HandleServerHello(env, c, frame.sid, frame.serverHello, now, draws);
    if o.reply.Ok? {
      Mute(o.reply.actions);
    }
  }

  lemma HandleTunnelConserves(env: ClientEnv, c: Client, from: PeerId, frame: Frame, now: Time, draws: ClientDraws)
    requires env.cfg.sessionTimeout > 0 && Modes(env, c)
    ensures var o := HandleTunnel(env, c, from, frame, now, draws);
            Settled(o.fates) + Waiting(o.client.queue) == Waiting(c.queue) && Reported(o)
  {
    if from == env.serverPeer {
      if frame.RetryMsg? || frame.ServerHelloMsg? {
        HandshakeMessageConserves(env, c, frame, now, draws);
      } else if !frame.Undecodable? {
        HandleRecordConserves(env, c, frame, now, draws);
      }
    }
  }

  lemma OtherConserves(env: ClientEnv, c: Client, event: ClientEvent, now: Time, draws: ClientDraws)
    requires env.cfg.sessionTimeout > 0 && (event.Start? || event.Reconnect? || event.CloseConversation? || event.ServerDatagram?)
    ensures var o := ClientStep(env, c, event, now, draws);
            o.client.queue == c.queue && o.fates == [] && Reported(o)
  {
    var o := ClientStep(env, c, event, now, draws);
    if o.reply.Ok? {
      Mute(o.reply.actions);
    }
  }

  /** Every event conserves datagrams, in order, and its reply shows every fate. */
  lemma ClientStepConserves(env: ClientEnv, c: Client, event: ClientEvent, now: Time, draws: ClientDraws)
    requires ClientInv(env, c) && env.cfg.sessionTimeout > 0
    ensures var o := ClientStep(env, c, event, now, draws);
            Conserves(env, c, event, o) && Reported(o)
  {
    match event
    case ClientDatagram(d) => HandleLocalConserves(env, c, d, now, DrawAt(draws.convs), draws);
    case TunnelFrame(from, frame) => HandleTunnelConserves(env, c, from, frame, now, draws);
    case TimeAdvanced(at) => ExpireSettles(env, c, at, draws);
    case _ => OtherConserves(env, c, event, now, draws);
  }
}
