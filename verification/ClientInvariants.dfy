/** What every event of the client engine keeps. */
module ClientInvariants {
  import opened Base
  import opened Protocol
  import opened Messages
  import opened Sessions
  import opened ClientSpec

  function KeyOf(s: ClientSession): SessionKey {
    s.sealer.key.session
  }

  /** `by_peer` and `by_id` are inverses. */
  ghost predicate Tables(byPeer: map<LocalPeer, Conversation>, byId: map<ConvId, LocalPeer>) {
    && (forall p :: p in byPeer ==> byPeer[p].id in byId && byId[byPeer[p].id] == p)
    && (forall id :: id in byId ==> byId[id] in byPeer && byPeer[byId[id]].id == id)
  }

  lemma TablesTouched(byPeer: map<LocalPeer, Conversation>, byId: map<ConvId, LocalPeer>, p: LocalPeer, conv: Conversation)
    requires Tables(byPeer, byId) && p in byPeer && conv.id == byPeer[p].id
    ensures Tables(byPeer[p := conv], byId)
  {
  }

  lemma TablesOpened(byPeer: map<LocalPeer, Conversation>, byId: map<ConvId, LocalPeer>, p: LocalPeer, conv: Conversation)
    requires Tables(byPeer, byId) && p !in byPeer && conv.id !in byId
    ensures Tables(byPeer[p := conv], byId[conv.id := p])
  {
  }

  lemma TablesForgotten(byPeer: map<LocalPeer, Conversation>, byId: map<ConvId, LocalPeer>, p: LocalPeer)
    requires Tables(byPeer, byId) && p in byPeer
    ensures Tables(byPeer - {p}, byId - {byPeer[p].id})
  {
  }

  /** Both halves of a session use the keys of one handshake, and its handles
      name live conversations only. */
  ghost predicate SessionSound(env: ClientEnv, s: ClientSession, byId: map<ConvId, LocalPeer>) {
    && s.sealer == Sealer(env.cfg.suite, ClientToServer, s.id, DirectionKey(KeyOf(s), ClientToServer), s.sealer.next)
    && s.opener == Opener(env.cfg.suite, ServerToClient, s.id, DirectionKey(KeyOf(s), ServerToClient), s.opener.window)
    && KeyOf(s).psk == env.psk
    && KeyOf(s).sid == s.id
    && KeyOf(s).hello.suite == env.cfg.suite
    && KeyOf(s).serverHello.body.resumed == s.resumed
    && AllocateOnly(s.handles)
    && (forall id :: id in s.handles.byId ==> id in byId)
  }

  ghost predicate Sound(env: ClientEnv, c: Client) {
    && Tables(c.byPeer, c.byId)
    && |c.byPeer| <= env.cfg.maxConversations
    && (c.session.Some? ==> SessionSound(env, c.session.value, c.byId))
  }

  /** The pending handshake agrees with the session it has derived. */
  ghost predicate HandshakeSound(env: ClientEnv, h: Handshake, session: Option<ClientSession>) {
    && h.attempts >= 1
    && h.hello.suite == env.cfg.suite
    && (h.phase.AwaitingServerAck? <==> session.Some?)
    && (session.Some? ==>
          && KeyOf(session.value) == SessionKey(env.psk, h.hello, h.phase.serverHello, session.value.id)
          && h.phase.finish == FinishMsg(session.value.id, CreateFinish(env.psk, h.hello, h.phase.serverHello, session.value.id))
          && session.value.sealer.next == 0
          && session.value.handles == NewTable())
  }

  /** The state machine: which of handshake, session and queue a mode allows. */
  ghost predicate Modes(env: ClientEnv, c: Client) {
    && (IsHandshaking(c) <==> c.handshake.Some?)
    && (IsHandshaking(c) ==> HandshakeSound(env, c.handshake.value, c.session))
    && (c.mode.Ready? ==> c.session.Some?)
    && (c.mode.Idle? || c.mode.Closed? ==> c.session.None?)
    && (!IsHandshaking(c) ==> c.queue == [])
    && |c.queue| <= env.cfg.reconnectQueueCapacity
    && (forall q :: q in c.queue ==> |q.datagram.payload| <= env.cfg.maxFramePayload)
  }

  ghost predicate ClientInv(env: ClientEnv, c: Client) {
    Sound(env, c) && Modes(env, c)
  }

  /** Fresh conversation identifiers: not in use, and no two alike. */
  ghost predicate FreshDraws(convs: seq<Option<ConvId>>, used: set<ConvId>) {
    && (forall i :: 0 <= i < |convs| && convs[i].Some? ==> convs[i].value !in used)
    && (forall i, j :: 0 <= i < j < |convs| && convs[i].Some? ==> convs[i] != convs[j])
  }

  // ------------------------------------------------ what an event does to a session

  /** The table only loses entries or gains handles never used before. */
  ghost predicate TableStep(t0: HandleTable, t1: HandleTable) {
    && t0.next <= t1.next
    && (forall h :: h in t1.byHandle ==> (h in t0.byHandle && t1.byHandle[h] == t0.byHandle[h]) || h >= t0.next)
  }

  ghost predicate TableGrows(t0: HandleTable, t1: HandleTable) {
    && TableStep(t0, t1)
    && (forall h :: h in t0.byHandle ==> h in t1.byHandle && t1.byHandle[h] == t0.byHandle[h])
  }

  /** A record sealed by this client: numbered inside [from, to), for a handle of
      its table, and either carrying that conversation's datagram or
      re-announcing that conversation with its own credential. */
  ghost predicate Labelled(c: Client, from: nat, to: nat, frame: Frame, fates: seq<Fate>) {
    && c.session.Some?
    && frame.RecordMsg?
    && from <= frame.header.number < to
    && var s := c.session.value;
       && frame.body.Sealed?
       && frame.body == Sealed(s.sealer.key, s.sealer.dir, s.sealer.suite, frame.header, frame.body.plain)
       && frame.header.sid == s.id
       && frame.header.handle.Some?
       && frame.header.handle.value in s.handles.byHandle
       && var conv := s.handles.byHandle[frame.header.handle.value];
          && conv in c.byId
          && (frame.header.ftype.Data? || frame.header.ftype.ResumeConversation?)
          && (frame.header.ftype.Data? ==> CarriedAs(fates, frame))
          && (frame.header.ftype.ResumeConversation? ==>
                && c.byId[conv] in c.byPeer
                && c.byPeer[c.byId[conv]].ticket.Some?
                && frame.body.plain == CredentialBytes(c.byPeer[c.byId[conv]].ticket.value.credential))
  }

  ghost predicate CarriedAs(fates: seq<Fate>, frame: Frame) {
    exists i :: 0 <= i < |fates| && fates[i].Carried? && fates[i].frame == frame
  }

  /** A carried datagram went into a record of its own peer's conversation. */
  ghost predicate FateSound(c: Client, fate: Fate, frames: seq<Frame>) {
    fate.Carried? ==>
      && fate.frame in frames
      && c.session.Some?
      && fate.frame.RecordMsg? && fate.frame.header.ftype.Data? && fate.frame.header.handle.Some?
      && fate.frame.header.handle.value in c.session.value.handles.byHandle
      && c.session.value.handles.byHandle[fate.frame.header.handle.value] == fate.conv
      && fate.conv in c.byId && c.byId[fate.conv] == fate.datagram.localPeer
      && fate.frame.body.Sealed? && fate.frame.body.plain == Payload(fate.datagram.payload)
  }

  /** Conversations stay with their peer and their ticket; new ones have none. */
  ghost predicate PeersGrow(c0: Client, c1: Client) {
    && (forall id :: id in c0.byId ==> id in c1.byId && c1.byId[id] == c0.byId[id])
    && (forall p :: p in c0.byPeer ==> p in c1.byPeer && c1.byPeer[p].id == c0.byPeer[p].id
                                       && c1.byPeer[p].ticket == c0.byPeer[p].ticket)
    && (forall p :: p in c1.byPeer && p !in c0.byPeer ==> c1.byPeer[p].ticket.None?)
  }

  /** Part of an event in which the session stays and its tables only grow. */
  ghost predicate Grows(c0: Client, c1: Client, frames: seq<Frame>, fates: seq<Fate>) {
    && c0.session.Some? && c1.session.Some?
    && c1.mode == c0.mode && c1.handshake == c0.handshake
    && var s0 := c0.session.value; var s1 := c1.session.value;
       && s1 == s0.(sealer := s0.sealer.(next := s1.sealer.next), handles := s1.handles)
       && s0.sealer.next <= s1.sealer.next
       && TableGrows(s0.handles, s1.handles)
       && PeersGrow(c0, c1)
       && Ascending(frames)
       && (forall f :: f in frames ==> Labelled(c1, s0.sealer.next, s1.sealer.next, f, fates))
       && (forall i :: 0 <= i < |fates| ==> FateSound(c1, fates[i], frames))
  }

  lemma GrowsTransitive(c0: Client, c1: Client, c2: Client, f1: seq<Frame>, g1: seq<Fate>, f2: seq<Frame>, g2: seq<Fate>)
    requires Grows(c0, c1, f1, g1) && Grows(c1, c2, f2, g2)
    ensures Grows(c0, c2, f1 + f2, g1 + g2)
  {
    var from, to := c0.session.value.sealer.next, c2.session.value.sealer.next;
    forall f | f in f1 + f2
      ensures Labelled(c2, from, to, f, g1 + g2)
    {
      if f in f1 {
        assert Labelled(c1, from, c1.session.value.sealer.next, f, g1);
        if f.header.ftype.Data? {
          var i :| 0 <= i < |g1| && g1[i].Carried? && g1[i].frame == f;
          assert (g1 + g2)[i] == g1[i];
        }
      } else {
        assert Labelled(c2, c1.session.value.sealer.next, to, f, g2);
        if f.header.ftype.Data? {
          var i :| 0 <= i < |g2| && g2[i].Carried? && g2[i].frame == f;
          assert (g1 + g2)[|g1| + i] == g2[i];
        }
      }
    }
    forall i | 0 <= i < |g1 + g2|
      ensures FateSound(c2, (g1 + g2)[i], f1 + f2)
    {
      if i < |g1| {
        assert FateSound(c1, g1[i], f1);
      } else {
        assert FateSound(c2, g2[i - |g1|], f2);
      }
    }
    forall i, j | 0 <= i < j < |f1 + f2|
      ensures (f1 + f2)[i].header.number < (f1 + f2)[j].header.number
    {
      assert (f1 + f2)[i] in f1 + f2 && (f1 + f2)[j] in f1 + f2;
      if i < |f1| <= j {
        assert f1[i] in f1 && f2[j - |f1|] in f2;
        assert Labelled(c1, from, c1.session.value.sealer.next, f1[i], g1);
        assert Labelled(c2, c1.session.value.sealer.next, to, f2[j - |f1|], g2);
      }
    }
  }
}
