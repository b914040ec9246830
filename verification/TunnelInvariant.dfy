/** How the two engines and the history of a run agree. */
module TunnelInvariant {
  import opened Messages
  import opened Tunnel
  import C = ClientSpec
  import CI = ClientInvariants
  import S = ServerSpec
  import SI = ServerInvariants

  /** Server conversation `c` was opened by a datagram of client conversation `k`. */
  ghost predicate From(h: History, c: ConvId, k: ConvId) {
    c in h.openedBy && h.openedBy[c] in h.carried && h.carried[h.openedBy[c]].conv == k
  }

  // ---------------------------------------------------------------- sealed bodies

  /** A record of the client belongs to the owner of its handle. */
  ghost predicate ClientBody(h: History, b: Body)
    requires b.Sealed?
  {
    var key := b.key.session;
    && key.hello.clientNonce in h.nonces
    && b.header.handle.Some?
    && (key, b.header.handle.value) in h.owner
    && var k := h.owner[(key, b.header.handle.value)];
       || (b.header.ftype.Data? && b in h.carried && h.carried[b].conv == k && b.plain == Payload(h.carried[b].datagram.payload))
       || (b.header.ftype.ResumeConversation? && b.plain.CredentialBytes? && From(h, b.plain.credential.body.conversation, k))
  }

  /** A record of the server acknowledges an accepted handshake, or concerns a
      conversation that the owner of its handle has opened. */
  ghost predicate ServerBody(h: History, b: Body)
    requires b.Sealed?
  {
    var key := b.key.session;
    && key in h.accepted
    && (|| (b.header.ftype.HandshakeAck? && b.header.handle.None?)
        || (&& b.header.handle.Some?
            && (key, b.header.handle.value) in h.owner
            && var k := h.owner[(key, b.header.handle.value)];
               || (b.header.ftype.Data? && b in h.replyFor && b.plain == Payload(h.replyFor[b].payload)
                   && From(h, h.replyFor[b].conv, k))
               || (b.header.ftype.ResumptionCredential? && b.plain.CredentialBytes?
                   && From(h, b.plain.credential.body.conversation, k))))
  }

  ghost predicate BodySound(h: History, b: Body) {
    b.Sealed? ==>
      && (b.key.dir.ClientToServer? ==> ClientBody(h, b))
      && (b.key.dir.ServerToClient? ==> ServerBody(h, b))
  }

  ghost predicate KnownSound(h: History) {
    forall b :: BodyAtom(b) in h.known ==> BodySound(h, b)
  }

  /** Two records of one key and one number are the same record. */
  ghost predicate SameNumberSame(h: History, b1: Body, b2: Body) {
    (&& BodyAtom(b1) in h.known && BodyAtom(b2) in h.known
     && b1.Sealed? && b2.Sealed?
     && b1.key == b2.key && b1.header.number == b2.header.number) ==> b1 == b2
  }

  ghost predicate NumbersUnique(h: History) {
    forall b1, b2 :: SameNumberSame(h, b1, b2)
  }

  // ---------------------------------------------------------------- the history itself

  ghost predicate CarriedSound(h: History, b: Body) {
    b in h.carried ==>
      && BodyAtom(b) in h.known && b.Sealed? && b.key.dir.ClientToServer?
      && h.carried[b].conv in h.peerOf && h.peerOf[h.carried[b].conv] == h.carried[b].datagram.localPeer
  }

  ghost predicate OwnerSound(h: History, key: SessionKey, handle: Handle) {
    (key, handle) in h.owner ==> key.hello.clientNonce in h.nonces
  }

  ghost predicate ReplySound(h: History, b: Body) {
    b in h.replyFor ==> BodyAtom(b) in h.known && b.Sealed? && b.key.dir.ServerToClient?
  }

  ghost predicate OpenedSound(h: History, c: ConvId) {
    c in h.openedBy ==> h.openedBy[c] in h.carried
  }

  ghost predicate AcceptedSound(h: History, key: SessionKey) {
    key in h.accepted ==>
      && key.sid in h.sids
      && h.accepted[key] == Terms(key.sid, key.hello.suite, key.serverHello.body.resumed)
  }

  ghost predicate HistorySound(h: History) {
    && KnownSound(h)
    && NumbersUnique(h)
    && (forall b :: CarriedSound(h, b))
    && (forall key, handle :: OwnerSound(h, key, handle))
    && (forall b :: ReplySound(h, b))
    && (forall c :: OpenedSound(h, c))
    && (forall key :: AcceptedSound(h, key))
  }

  // ---------------------------------------------------------------- the client

  /** The session's table and counter against everything ever sealed. */
  ghost predicate SessionLink(h: History, s: C.ClientSession) {
    var key := CI.KeyOf(s);
    && key.hello.clientNonce in h.nonces
    && (forall hd :: (key, hd) in h.owner ==> hd < s.handles.next)
    && (forall hd :: hd in s.handles.byHandle ==> (key, hd) in h.owner && h.owner[(key, hd)] == s.handles.byHandle[hd])
    && (forall b :: BodyAtom(b) in h.known && b.Sealed? && b.key == s.sealer.key ==> b.header.number < s.sealer.next)
  }

  /** No session has come out of this nonce yet. */
  ghost predicate Untouched(h: History, nonce: nat) {
    && (forall key, hd :: (key, hd) in h.owner ==> key.hello.clientNonce != nonce)
    && (forall b :: BodyAtom(b) in h.known && b.Sealed? && b.key.dir.ClientToServer? ==>
          b.key.session.hello.clientNonce != nonce)
  }

  ghost predicate HandshakeLink(h: History, hs: C.Handshake) {
    && hs.hello.clientNonce in h.nonces
    && (hs.phase.AwaitingServerHello? ==> Untouched(h, hs.hello.clientNonce))
  }

  ghost predicate ClientLink(h: History, c: C.Client) {
    && (c.session.Some? ==> SessionLink(h, c.session.value))
    && (c.handshake.Some? ==> HandshakeLink(h, c.handshake.value))
    && (forall id :: id in c.byId ==> id in h.peerOf && h.peerOf[id] == c.byId[id])
    && (forall p :: p in c.byPeer && c.byPeer[p].ticket.Some? ==>
          From(h, c.byPeer[p].ticket.value.credential.body.conversation, c.byPeer[p].id))
  }

  /** A ready client's session was accepted by the server. */
  ghost predicate Agreed(h: History, c: C.Client) {
    c.mode.Ready? && c.session.Some? ==> CI.KeyOf(c.session.value) in h.accepted
  }

  // ---------------------------------------------------------------- the server

  ghost predicate ServerSessionLink(h: History, s: S.ServerSession) {
    var key := SI.KeyOf(s);
    && key in h.accepted
    && s.ack.RecordMsg? && BodyAtom(s.ack.body) in h.known
    && (forall hd :: hd in s.handles.byHandle ==> (key, hd) in h.owner && From(h, s.handles.byHandle[hd], h.owner[(key, hd)]))
    && (forall b :: BodyAtom(b) in h.known && b.Sealed? && b.key == s.sealer.key ==> b.header.number < s.sealer.next)
  }

  ghost predicate ServerLink(h: History, s: S.Server) {
    && (forall sid :: sid in s.sessions ==> ServerSessionLink(h, s.sessions[sid]))
    && s.pending.Keys <= h.sids
    && (forall key :: key in h.accepted ==> key.sid !in s.pending)
    && (forall sid :: SI.Held(s, sid) <= h.openedBy.Keys)
  }

  // ---------------------------------------------------------------- the logs

  /** A payload delivered upstream is that of a client datagram, from the
      conversation and the local peer that opened the server conversation. */
  ghost predicate UpSound(h: History, u: Up) {
    && u.body in h.carried && h.carried[u.body].datagram.payload == u.payload
    && u.conv in h.openedBy && h.openedBy[u.conv] in h.carried
    && h.carried[h.openedBy[u.conv]].conv == h.carried[u.body].conv
    && h.carried[h.openedBy[u.conv]].datagram.localPeer == h.carried[u.body].datagram.localPeer
  }

  /** A reply delivered to a local peer was sealed for a server conversation
      that this very peer has opened. */
  ghost predicate DownSound(h: History, d: Down) {
    && d.body in h.replyFor && h.replyFor[d.body].payload == d.payload
    && h.replyFor[d.body].conv in h.openedBy && h.openedBy[h.replyFor[d.body].conv] in h.carried
    && h.carried[h.openedBy[h.replyFor[d.body].conv]].datagram.localPeer == d.localPeer
  }

  /** What the client reports is what the server has reported. */
  ghost predicate ReportSound(h: History, r: Reported) {
    r.key in h.accepted && h.accepted[r.key] == r.terms
  }

  ghost predicate LogsSound(h: History) {
    && (forall u :: u in h.ups ==> UpSound(h, u))
    && (forall d :: d in h.downs ==> DownSound(h, d))
    && (forall r :: r in h.reports ==> ReportSound(h, r))
  }

  // ---------------------------------------------------------------- all of it

  ghost predicate SystemInv(env: Env, sys: System) {
    && CI.ClientInv(env.client, sys.client)
    && SI.ServerInv(env.server, sys.server)
    && HistorySound(sys.history)
    && ClientLink(sys.history, sys.client)
    && Agreed(sys.history, sys.client)
    && ServerLink(sys.history, sys.server)
    && LogsSound(sys.history)
  }

  // ---------------------------------------------------------------- growth

  ghost predicate SubMap<K, V>(m0: map<K, V>, m1: map<K, V>) {
    forall k :: k in m0 ==> k in m1 && m1[k] == m0[k]
  }

  /** The history only ever grows. */
  ghost predicate HistoryGrows(h0: History, h1: History) {
    && h0.known <= h1.known && h0.nonces <= h1.nonces && h0.sids <= h1.sids
    && h0.begun <= h1.begun && h0.offered <= h1.offered
    && SubMap(h0.owner, h1.owner) && SubMap(h0.peerOf, h1.peerOf)
    && SubMap(h0.carried, h1.carried) && SubMap(h0.openedBy, h1.openedBy)
    && SubMap(h0.replyFor, h1.replyFor) && SubMap(h0.accepted, h1.accepted)
  }

  lemma FromGrows(h0: History, h1: History, c: ConvId, k: ConvId)
    requires HistoryGrows(h0, h1) && From(h0, c, k)
    ensures From(h1, c, k)
  {
  }

  lemma BodyGrows(h0: History, h1: History, b: Body)
    requires HistoryGrows(h0, h1) && BodySound(h0, b)
    ensures BodySound(h1, b)
  {
    if b.Sealed? && b.plain.CredentialBytes? && b.header.handle.Some? && (b.key.session, b.header.handle.value) in h0.owner {
      var c := b.plain.credential.body.conversation;
      var k := h0.owner[(b.key.session, b.header.handle.value)];
      if From(h0, c, k) {
        FromGrows(h0, h1, c, k);
      }
    }
  }

  lemma LogsGrow(h0: History, h1: History)
    requires HistoryGrows(h0, h1) && LogsSound(h0)
    requires forall u :: u in h1.ups ==> u in h0.ups || UpSound(h1, u)
    requires forall d :: d in h1.downs ==> d in h0.downs || DownSound(h1, d)
    requires forall r :: r in h1.reports ==> r in h0.reports || ReportSound(h1, r)
    ensures LogsSound(h1)
  {
  }

  /** Known bodies after new ones have been sent. */
  lemma KnownGrows(h0: History, h1: History)
    requires HistoryGrows(h0, h1) && KnownSound(h0)
    requires forall b :: BodyAtom(b) in h1.known && BodyAtom(b) !in h0.known ==> BodySound(h1, b)
    ensures KnownSound(h1)
  {
    forall b | BodyAtom(b) in h1.known
      ensures BodySound(h1, b)
    {
      if BodyAtom(b) in h0.known {
        assert BodySound(h0, b);
        BodyGrows(h0, h1, b);
      }
    }
  }

  lemma NewSystemInv(env: Env)
    requires ValidEnv(env)
    ensures SystemInv(env, NewSystem())
  {
    var h := NewHistory();
    forall peer
      ensures S.PendingOf(S.NewServer().pending, peer) == {}
    {
    }
  }
}
