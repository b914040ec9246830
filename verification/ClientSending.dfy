/** Sending: sealing datagrams, rebinding conversations and draining the queue
    keep the client sound and only ever extend its session. */
module ClientSending {
  import opened Base
  import opened Protocol
  import opened Messages
  import opened Sessions
  import opened ClientSpec
  import opened ClientInvariants

  function SentRecords(r: Reply): seq<Frame> {
    if r.Ok? then Records(r.actions) else []
  }

  ghost predicate Unused(c: Client, draw: Option<ConvId>) {
    draw.Some? ==> draw.value !in c.byId
  }

  lemma ConversationForSound(env: ClientEnv, c: Client, peer: LocalPeer, now: Time, draw: Option<ConvId>)
    requires Sound(env, c) && Unused(c, draw)
    ensures var l := ConversationFor(env, c, peer, now, draw);
            l.Found? ==>
              && Sound(env, l.client) && PeersGrow(c, l.client)
              && l.id in l.client.byId && l.client.byId[l.id] == peer
              && l.client == c.(byPeer := l.client.byPeer, byId := l.client.byId)
              && Records(l.actions) == []
              && (forall id :: id in l.client.byId ==> id in c.byId || Some(id) == draw)
  {
    if peer in c.byPeer {
      TablesTouched(c.byPeer, c.byId, peer, c.byPeer[peer].(lastActivity := now));
    } else if draw.Some? {
      TablesOpened(c.byPeer, c.byId, peer, Conversation(draw.value, now, None));
    }
  }

  lemma SealDatagramSound(env: ClientEnv, c: Client, d: Datagram, id: ConvId, opening: seq<Action>)
    requires Sound(env, c) && c.session.Some? && id in c.byId
    ensures var o := SealDatagram(env, c, d, id, opening);
            && Sound(env, o.client)
            && o.client == c.(session := o.client.session)
  {
  }

  lemma TableGrowsOnly(c: Client, table: HandleTable)
    requires c.session.Some? && TableGrows(c.session.value.handles, table)
    ensures Grows(c, c.(session := Some(c.session.value.(handles := table))), [], [])
  {
  }

  /** One more record of the session, for a handle of its table. */
  lemma SealedGrows(c: Client, d: Datagram, id: ConvId, table: HandleTable, handle: Handle, frame: Frame)
    requires c.session.Some? && TableGrows(c.session.value.handles, table)
    requires handle in table.byHandle && table.byHandle[handle] == id && id in c.byId && c.byId[id] == d.localPeer
    requires var s := c.session.value; var header := Header(s.id, s.sealer.next, 0, Data, Some(handle));
             frame == RecordMsg(header, Sealed(s.sealer.key, s.sealer.dir, s.sealer.suite, header, Payload(d.payload)))
    ensures var s := c.session.value;
            Grows(c, c.(session := Some(s.(handles := table, sealer := s.sealer.(next := s.sealer.next + 1)))),
                  [frame], [Carried(d, id, frame)])
  {
    var fates := [Carried(d, id, frame)];
    assert fates[0].Carried? && fates[0].frame == frame;
    assert CarriedAs(fates, frame);
  }

  lemma SealDatagramGrows(env: ClientEnv, c: Client, d: Datagram, id: ConvId, opening: seq<Action>)
    requires c.session.Some? && AllocateOnly(c.session.value.handles) && c.session.value.sealer.sid == c.session.value.id
    requires id in c.byId && c.byId[id] == d.localPeer && Records(opening) == []
    ensures var o := SealDatagram(env, c, d, id, opening);
            Grows(c, o.client, SentRecords(o.reply), o.fates)
  {
    hide Grows;
    var o := SealDatagram(env, c, d, id, opening);
    var s := c.session.value;
    var a := Allocate(s.handles, id);
    TableGrowsOnly(c, if a.HandleOk? then a.table else s.handles);
    if o.reply.Ok? {
      var frame := o.fates[0].frame;
      RecordsConcat(opening, [SendFrame(env.serverPeer, frame)]);
      assert SentRecords(o.reply) == [frame];
      SealedGrows(c, d, id, a.table, a.handle, frame);
      assert o.fates == [Carried(d, id, frame)];
    } else if a.HandleErr? {
      assert o.client == c.(session := Some(s.(handles := s.handles)));
    }
  }

  /** One datagram through a session: at most one record, labelled with the
      conversation and the peer it came from. */
  lemma SendDataGrows(env: ClientEnv, c: Client, d: Datagram, now: Time, draw: Option<ConvId>)
    requires Sound(env, c) && c.session.Some? && Unused(c, draw)
    ensures var o := SendData(env, c, d, now, draw);
            && Sound(env, o.client)
            && o.client.queue == c.queue
            && Grows(c, o.client, SentRecords(o.reply), o.fates)
            && (forall id :: id in o.client.byId ==> id in c.byId || Some(id) == draw)
  {
    var l := ConversationFor(env, c, d.localPeer, now, draw);
    ConversationForSound(env, c, d.localPeer, now, draw);
    if l.Found? {
      var o := SendData(env, c, d, now, draw);
      SealDatagramSound(env, l.client, d, l.id, l.actions);
      SealDatagramGrows(env, l.client, d, l.id, l.actions);
      assert Grows(c, l.client, [], []);
      GrowsTransitive(c, l.client, o.client, [], [], SentRecords(o.reply), o.fates);
      assert [] + SentRecords(o.reply) == SentRecords(o.reply) && [] + o.fates == o.fates;
    }
  }

  /** A datagram is carried when the send succeeds, and only then. */
  lemma SendDataFates(env: ClientEnv, c: Client, d: Datagram, now: Time, draw: Option<ConvId>)
    ensures var o := SendData(env, c, d, now, draw);
            && !o.reply.Panic?
            && (o.reply.Err? ==> o.fates == [])
            && (o.reply.Ok? ==> |o.fates| == 1 && o.fates[0].Carried? && o.fates[0].datagram == d)
  {
  }

  // ---------------------------------------------------------------- rebinding

  lemma RebindOneGrows(c: Client, peer: LocalPeer)
    requires c.session.Some? && AllocateOnly(c.session.value.handles) && c.session.value.sealer.sid == c.session.value.id
    requires peer in c.byPeer && c.byPeer[peer].ticket.Some?
    requires c.byPeer[peer].id in c.byId && c.byId[c.byPeer[peer].id] == peer
    requires Allocate(c.session.value.handles, c.byPeer[peer].id).HandleOk?
    ensures var s := c.session.value; var conv := c.byPeer[peer];
            var a := Allocate(s.handles, conv.id);
            var r := Seal(s.sealer, ResumeConversation, Some(a.handle), CredentialBytes(conv.ticket.value.credential));
            && (r.SealOk? ==> Grows(c, c.(session := Some(s.(handles := a.table, sealer := r.sealer))), [r.frame], []))
            && Grows(c, c.(session := Some(s.(handles := a.table))), [], [])
  {
    var s := c.session.value;
    var conv := c.byPeer[peer];
    var a := Allocate(s.handles, conv.id);
    assert TableGrows(s.handles, a.table);
  }

  lemma SoundWith(env: ClientEnv, c: Client, table: HandleTable, next: nat)
    requires Sound(env, c) && c.session.Some?
    requires AllocateOnly(table) && forall id :: id in table.byId ==> id in c.byId
    ensures var s := c.session.value;
            Sound(env, c.(session := Some(s.(handles := table, sealer := s.sealer.(next := next)))))
  {
  }

  /** Rebinding extends the session with records that each name a conversation
      and present that conversation's own credential. */
  lemma {:induction false} RebindGrows(env: ClientEnv, c: Client, order: seq<LocalPeer>)
    requires Sound(env, c) && c.session.Some?
    ensures var r := Rebind(env, c.session.value, c.byPeer, order);
            var c1 := c.(session := Some(r.session));
            && Sound(env, c1)
            && Grows(c, c1, if r.ReboundOk? then Records(r.actions) else [], [])
    decreases |order|
  {
    var s := c.session.value;
    var r := Rebind(env, s, c.byPeer, order);
    if order == [] {
    } else if order[0] in c.byPeer && c.byPeer[order[0]].ticket.Some?
              && Some(c.byPeer[order[0]].ticket.value.source) == s.source {
      var conv := c.byPeer[order[0]];
      var a := Allocate(s.handles, conv.id);
      if a.HandleOk? {
        RebindOneGrows(c, order[0]);
        var f := Seal(s.sealer, ResumeConversation, Some(a.handle), CredentialBytes(conv.ticket.value.credential));
        SoundWith(env, c, a.table, if f.SealOk? then s.sealer.next + 1 else s.sealer.next);
        if f.SealOk? {
          var c1 := c.(session := Some(s.(handles := a.table, sealer := f.sealer)));
          RebindGrows(env, c1, order[1..]);
          RebindCompose(env, c, c1, order, f.frame);
        }
      }
    } else {
      RebindGrows(env, c, order[1..]);
    }
  }

  lemma RebindCompose(env: ClientEnv, c: Client, c1: Client, order: seq<LocalPeer>, frame: Frame)
    requires order != [] && c1.session.Some? && frame.RecordMsg?
    requires Grows(c, c1, [frame], [])
    requires var r := Rebind(env, c1.session.value, c1.byPeer, order[1..]);
             Grows(c1, c1.(session := Some(r.session)), if r.ReboundOk? then Records(r.actions) else [], [])
    ensures var r := Rebind(env, c1.session.value, c1.byPeer, order[1..]);
            && (r.ReboundOk? ==> Grows(c, c1.(session := Some(r.session)),
                                       Records([SendFrame(env.serverPeer, frame)] + r.actions), []))
            && (r.ReboundErr? ==> Grows(c, c1.(session := Some(r.session)), [], []))
  {
    var r := Rebind(env, c1.session.value, c1.byPeer, order[1..]);
    var more := if r.ReboundOk? then Records(r.actions) else [];
    GrowsTransitive(c, c1, c1.(session := Some(r.session)), [frame], [], more, []);
    if r.ReboundOk? {
      RecordsConcat([SendFrame(env.serverPeer, frame)], r.actions);
    }
  }

  // ---------------------------------------------------------------- flushing

  ghost predicate OnlyDrawn(c0: Client, c1: Client, convs: seq<Option<ConvId>>) {
    forall id :: id in c1.byId ==> id in c0.byId || Some(id) in convs
  }

  lemma GrowsFromQueue(c: Client, queue: seq<Queued>, c1: Client, frames: seq<Frame>, fates: seq<Fate>)
    requires Grows(c.(queue := queue), c1, frames, fates)
    ensures Grows(c, c1, frames, fates)
  {
  }

  lemma GrowsLosing(c: Client, c1: Client, lost: seq<Fate>)
    requires Grows(c, c1, [], []) && forall i :: 0 <= i < |lost| ==> lost[i].Lost?
    ensures Grows(c, c1, [], lost)
  {
  }

  lemma SendQueuedGrows(env: ClientEnv, c: Client, queue: seq<Queued>, d: Datagram, now: Time, draw: Option<ConvId>)
    requires Sound(env, c) && c.session.Some? && Unused(c, draw)
    ensures var o := SendData(env, c.(queue := queue), d, now, draw);
            && Sound(env, o.client)
            && Grows(c, o.client, SentRecords(o.reply), o.fates)
            && OnlyDrawn(c, o.client, [draw])
  {
    var c1 := c.(queue := queue);
    SendDataGrows(env, c1, d, now, draw);
    var o := SendData(env, c1, d, now, draw);
    GrowsFromQueue(c, queue, o.client, SentRecords(o.reply), o.fates);
  }

  lemma FlushHeadGrows(env: ClientEnv, c: Client, now: Time, draws: ClientDraws, draw: Option<ConvId>)
    requires Sound(env, c) && c.mode.Ready? && c.session.Some? && !Stale(env, c, now) && Unused(c, draw) && c.queue != []
    ensures var p := FlushHead(env, c, now, draws, draw);
            && Sound(env, p.client)
            && Grows(c, p.client, Records(p.actions), p.fates)
            && OnlyDrawn(c, p.client, [draw])
  {
    hide Grows, SendData;
    var p := FlushHead(env, c, now, draws, draw);
    var c1 := c.(queue := c.queue[1..]);
    var d := c.queue[0].datagram;
    if Elapsed(now, c.queue[0].queuedAt) >= env.cfg.reconnectQueueTimeout || |d.payload| > env.cfg.maxFramePayload {
      assert p.client == c1 && Records(p.actions) == [];
      GrowsLosing(c, c1, p.fates);
    } else {
      SendQueuedGrows(env, c, c.queue[1..], d, now, draw);
      SendDataFates(env, c1, d, now, draw);
      var o := SendData(env, c1, d, now, draw);
      if !o.reply.Ok? {
        GrowsLosing(c, o.client, p.fates);
      }
    }
  }

  lemma GrowsAcross(c0: Client, c1: Client, c2: Client, a1: seq<Action>, g1: seq<Fate>, a2: seq<Action>, g2: seq<Fate>)
    requires Grows(c0, c1, Records(a1), g1) && Grows(c1, c2, Records(a2), g2)
    ensures Grows(c0, c2, Records(a1 + a2), g1 + g2)
  {
    GrowsTransitive(c0, c1, c2, Records(a1), g1, Records(a2), g2);
    RecordsConcat(a1, a2);
  }

  lemma DrawnAcross(c0: Client, c1: Client, c2: Client, convs: seq<Option<ConvId>>)
    requires OnlyDrawn(c0, c1, [DrawAt(convs)]) && OnlyDrawn(c1, c2, DrawsAfter(convs))
    ensures OnlyDrawn(c0, c2, convs)
  {
    assert forall x :: x in DrawsAfter(convs) ==> x in convs;
    assert DrawAt(convs).Some? ==> DrawAt(convs) in convs;
  }

  /** Draining the queue extends the session by the queued datagrams. */
  lemma {:induction false} FlushGrows(env: ClientEnv, c: Client, now: Time, draws: ClientDraws, convs: seq<Option<ConvId>>)
    requires Sound(env, c) && c.mode.Ready? && c.session.Some? && !Stale(env, c, now)
    requires FreshDraws(convs, c.byId.Keys)
    ensures var p := Flush(env, c, now, draws, convs);
            && Sound(env, p.client)
            && Grows(c, p.client, Records(p.actions), p.fates)
            && OnlyDrawn(c, p.client, convs)
    decreases |c.queue|
  {
    if c.queue != [] {
      var head := FlushHead(env, c, now, draws, DrawAt(convs));
      FlushHeadGrows(env, c, now, draws, DrawAt(convs));
      DrawsStayFresh(c, head.client, convs);
      FlushGrows(env, head.client, now, draws, DrawsAfter(convs));
      var rest := Flush(env, head.client, now, draws, DrawsAfter(convs));
      GrowsAcross(c, head.client, rest.client, head.actions, head.fates, rest.actions, rest.fates);
      DrawnAcross(c, head.client, rest.client, convs);
    }
  }

  lemma DrawsStayFresh(c0: Client, c1: Client, convs: seq<Option<ConvId>>)
    requires FreshDraws(convs, c0.byId.Keys) && OnlyDrawn(c0, c1, [DrawAt(convs)])
    ensures FreshDraws(DrawsAfter(convs), c1.byId.Keys)
  {
    var rest := DrawsAfter(convs);
    forall i | 0 <= i < |rest| && rest[i].Some?
      ensures rest[i].value !in c1.byId
    {
      assert rest[i] == convs[i + 1];
    }
  }
}
