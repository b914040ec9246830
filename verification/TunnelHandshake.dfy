/** The handshake seen from the server, over whole runs: every session it accepts is
    one this client has derived, from a server hello it has made itself. */
module TunnelHandshake {
  import opened Base
  import opened Messages
  import opened Tunnel
  import opened TunnelInvariant
  import opened TunnelLogs
  import C = ClientSpec
  import CI = ClientInvariants
  import CH = ClientHandshakes
  import CN = ClientSending
  import CS = ClientSteps
  import S = ServerSpec
  import SI = ServerInvariants
  import SE = ServerEffects
  import SH = ServerHandshakes
  import TC = TunnelClient
  import TS = TunnelServer
  import TT = TunnelTheorems

  /** The server has sealed this credential, in the session that it names. */
  ghost predicate CredentialSent(h: History, c: Credential) {
    exists b :: && BodyAtom(b) in h.known && b.Sealed? && b.key.dir.ServerToClient?
                && b.plain == CredentialBytes(c) && b.key.session.sid == c.body.session
  }

  /** A tag under one of the secrets that the network does not know: a finish for a
      session the client has derived, a server hello that the server has made, or
      a credential that it has sealed. */
  ghost predicate TagSound(env: Env, h: History, m: Mac) {
    && (m.Mac? && m.key.HandshakeKey? && m.key.psk == env.client.psk && m.text.FullTranscript? ==>
          SessionKey(m.key.psk, m.text.hello, m.text.serverHello, m.text.sid) in h.begun)
    && (m.Mac? && m.key.HandshakeKey? && m.key.psk == env.client.psk && m.text.ServerAuth? ==>
          Offer(m.text.sid, m.text.hello, ServerHello(m.text.server, m)) in h.offered)
    && (m.Mac? && m.key == ServerSecret(env.server.secret) && m.text.CredentialText? ==>
          CredentialSent(h, Credential(m.text.credential, m)))
  }

  ghost predicate TagsSound(env: Env, h: History) {
    forall m :: MacAtom(m) in h.known ==> TagSound(env, h, m)
  }

  ghost predicate CredentialBody(env: Env, b: Body) {
    b.Sealed? && b.key.dir.ServerToClient? && b.plain.CredentialBytes? ==>
      SH.Genuine(env.server, b.plain.credential) && b.key.session.sid == b.plain.credential.body.session
  }

  ghost predicate CredentialsSound(env: Env, h: History) {
    forall b :: BodyAtom(b) in h.known ==> CredentialBody(env, b)
  }

  ghost predicate HeldSound(env: Env, h: History, c: Credential) {
    SH.Genuine(env.server, c) && CredentialSent(h, c)
  }

  ghost predicate HelloSound(env: Env, h: History, hello: ClientHello) {
    && (hello.cookie.Some? ==> hello.cookie.value.tag.ForgedMac? || MacAtom(hello.cookie.value.tag) in h.known)
    && (hello.resumption.Some? ==> HeldSound(env, h, hello.resumption.value))
  }

  ghost predicate ClientSide(env: Env, h: History, c: C.Client) {
    && (c.handshake.Some? ==> HelloSound(env, h, c.handshake.value.hello))
    && (forall p :: p in c.byPeer && c.byPeer[p].ticket.Some? ==> HeldSound(env, h, c.byPeer[p].ticket.value.credential))
    && (c.session.Some? ==> CI.KeyOf(c.session.value) in h.begun)
  }

  /** A handshake that resumes presents a credential that the server has sealed. */
  ghost predicate Entitled(h: History, hello: ClientHello, resumed: bool) {
    resumed ==> hello.resumption.Some? && CredentialSent(h, hello.resumption.value)
  }

  ghost predicate ServerSide(env: Env, h: History, s: S.Server) {
    && (forall sid :: sid in s.pending ==> Offer(sid, s.pending[sid].hello, s.pending[sid].serverHello) in h.offered)
    && (forall sid :: sid in s.pending ==> SH.Presents(env.server, s.pending[sid]))
    && (forall sid :: sid in s.pending ==> Entitled(h, s.pending[sid].hello, s.pending[sid].resumeFrom.Some?))
  }

  ghost predicate KeysSound(h: History) {
    && (forall key :: key in h.begun ==> Offer(key.sid, key.hello, key.serverHello) in h.offered)
    && (forall key :: key in h.accepted ==> key in h.begun && Entitled(h, key.hello, key.serverHello.body.resumed))
  }

  ghost predicate HandshakeInv(env: Env, sys: System) {
    && TagsSound(env, sys.history)
    && CredentialsSound(env, sys.history)
    && ClientSide(env, sys.history, sys.client)
    && ServerSide(env, sys.history, sys.server)
    && KeysSound(sys.history)
  }

  // ---------------------------------------------------------------- growth

  lemma SentGrows(h: History, h1: History, c: Credential)
    requires h.known <= h1.known && CredentialSent(h, c)
    ensures CredentialSent(h1, c)
  {
  }

  lemma TagGrows(env: Env, h: History, h1: History, m: Mac)
    requires HistoryGrows(h, h1) && TagSound(env, h, m)
    ensures TagSound(env, h1, m)
  {
    hide CredentialSent;
    if m.Mac? && m.key == ServerSecret(env.server.secret) && m.text.CredentialText? {
      SentGrows(h, h1, Credential(m.text.credential, m));
    }
  }

  lemma HeldGrows(env: Env, h: History, h1: History, c: Credential)
    requires HistoryGrows(h, h1) && HeldSound(env, h, c)
    ensures HeldSound(env, h1, c)
  {
    SentGrows(h, h1, c);
  }

  lemma HelloGrows(env: Env, h: History, h1: History, hello: ClientHello)
    requires HistoryGrows(h, h1) && HelloSound(env, h, hello)
    ensures HelloSound(env, h1, hello)
  {
    hide HeldSound;
    if hello.resumption.Some? {
      HeldGrows(env, h, h1, hello.resumption.value);
    }
  }

  lemma EntitledGrows(h: History, h1: History, hello: ClientHello, resumed: bool)
    requires HistoryGrows(h, h1) && Entitled(h, hello, resumed)
    ensures Entitled(h1, hello, resumed)
  {
    if resumed {
      SentGrows(h, h1, hello.resumption.value);
    }
  }

  lemma TagsGrow(env: Env, h: History, h1: History, actions: seq<Action>)
    requires HistoryGrows(h, h1) && TagsSound(env, h) && h1.known == h.known + SentAtoms(actions)
    requires forall m :: MacAtom(m) in SentAtoms(actions) ==> TagSound(env, h1, m)
    ensures TagsSound(env, h1)
  {
    hide TagSound, HistoryGrows;
    forall m | MacAtom(m) in h1.known
      ensures TagSound(env, h1, m)
    {
      if MacAtom(m) in h.known {
        TagGrows(env, h, h1, m);
      }
    }
  }

  /** A sound tag stays so once it is sent. */
  lemma TagKnown(env: Env, h: History, m: Mac)
    requires TagsSound(env, h) && (m.ForgedMac? || MacAtom(m) in h.known)
    ensures TagSound(env, h, m)
  {
  }

  lemma HeldTag(env: Env, h: History, c: Credential)
    requires HeldSound(env, h, c)
    ensures TagSound(env, h, c.tag)
  {
    assert Credential(c.body, c.tag) == c;
  }

  lemma SentTag(actions: seq<Action>, m: Mac) returns (a: Action)
    requires MacAtom(m) in SentAtoms(actions)
    ensures a in actions && a.SendFrame? && MacAtom(m) in Atoms(a.frame)
  {
    a :| a in actions && a.SendFrame? && MacAtom(m) in Atoms(a.frame);
  }

  // ---------------------------------------------------------------- a client event

  lemma TicketSound(env: Env, h: History, c: C.Client, event: C.ClientEvent, id: ConvId, t: C.Ticket)
    requires CS.TicketReceived(c, event, id, t) && Deliverable(event.frame, h.known) && CredentialsSound(env, h)
    requires c.session.value.opener.key.dir.ServerToClient?
    ensures HeldSound(env, h, t.credential)
  {
    var b := event.frame.body;
    assert BodyAtom(b) in Atoms(event.frame);
    assert CredentialBody(env, b);
  }

  lemma TicketsSound(env: Env, h: History, c0: C.Client, c1: C.Client, event: C.ClientEvent)
    requires CS.TicketsEvolve(c0, c1, event) && ClientSide(env, h, c0) && CredentialsSound(env, h)
    requires event.TunnelFrame? ==> Deliverable(event.frame, h.known)
    requires c0.session.Some? ==> c0.session.value.opener.key.dir.ServerToClient?
    ensures forall p :: p in c1.byPeer && c1.byPeer[p].ticket.Some? ==> HeldSound(env, h, c1.byPeer[p].ticket.value.credential)
  {
    hide HeldSound, CredentialsSound, Deliverable;
    forall p | p in c1.byPeer && c1.byPeer[p].ticket.Some?
      ensures HeldSound(env, h, c1.byPeer[p].ticket.value.credential)
    {
      var id, t := c1.byPeer[p].id, c1.byPeer[p].ticket.value;
      if CS.TicketReceived(c0, event, id, t) {
        TicketSound(env, h, c0, event, id, t);
      } else {
        assert CS.TicketHeld(c0, id, t);
      }
    }
  }

  lemma NewHelloSound(env: Env, h: History, c0: C.Client, c1: C.Client, event: C.ClientEvent)
    requires CH.HelloEvolves(env.client, c0, c1, event) && ClientSide(env, h, c0) && c1.handshake.Some?
    requires event.TunnelFrame? ==> Deliverable(event.frame, h.known)
    ensures HelloSound(env, h, c1.handshake.value.hello)
  {
    hide HeldSound;
    var hello := c1.handshake.value.hello;
    if !(c0.handshake.Some? && hello == c0.handshake.value.hello) && hello.cookie.Some? {
      assert MacAtom(event.frame.retry.body.cookie.tag) in Atoms(event.frame);
    }
  }

  /** A session that arises rests on a server hello that the server has made. */
  lemma NewKeyOffered(env: Env, h: History, c0: C.Client, c1: C.Client, event: C.ClientEvent)
    requires CH.SessionArises(env.client, c0, c1, event) && TagsSound(env, h) && c1.session.Some? && c0.session.None?
    requires event.TunnelFrame? ==> Deliverable(event.frame, h.known)
    ensures var key := CI.KeyOf(c1.session.value); Offer(key.sid, key.hello, key.serverHello) in h.offered
  {
    hide CredentialSent;
    var sh := event.frame.serverHello;
    assert MacAtom(sh.tag) in Atoms(event.frame);
    assert TagSound(env, h, sh.tag);
  }

  lemma BegunOffered(env: Env, h: History, h1: History, c0: C.Client, c1: C.Client, event: C.ClientEvent)
    requires KeysSound(h) && ClientSide(env, h, c0) && CS.SessionEvolves(c0, c1) && CH.SessionArises(env.client, c0, c1, event)
    requires TagsSound(env, h) && (event.TunnelFrame? ==> Deliverable(event.frame, h.known))
    requires HistoryGrows(h, h1) && h1.accepted == h.accepted && h1.offered == h.offered
    requires h1.begun == h.begun + (if c1.session.Some? then {CI.KeyOf(c1.session.value)} else {})
    ensures KeysSound(h1)
  {
    hide HistoryGrows, CH.SessionArises, TagsSound, Deliverable, Entitled;
    if c1.session.Some? && c0.session.None? {
      NewKeyOffered(env, h, c0, c1, event);
    }
    forall key | key in h1.accepted
      ensures Entitled(h1, key.hello, key.serverHello.body.resumed)
    {
      EntitledGrows(h, h1, key.hello, key.serverHello.body.resumed);
    }
  }

  /** Whatever tag a client event sends is its finish, or was known, or is that of a
      credential it holds. */
  lemma ClientTag(env: Env, h1: History, c1: C.Client, actions: seq<Action>, m: Mac)
    requires CS.HandshakeFramesSound(c1, actions) && MacAtom(m) in SentAtoms(actions)
    requires c1.handshake.Some? ==> CI.HandshakeSound(env.client, c1.handshake.value, c1.session)
    requires c1.handshake.Some? ==> HelloSound(env, h1, c1.handshake.value.hello)
    requires c1.session.Some? ==> CI.KeyOf(c1.session.value) in h1.begun
    ensures TagSound(env, h1, m) || MacAtom(m) in Atoms(HelloMsg(c1.handshake.value.hello))
    ensures c1.handshake.Some?
  {
    hide HelloSound, CredentialSent;
    var a := SentTag(actions, m);
    assert !a.frame.RecordMsg?;
  }

  lemma HelloTag(env: Env, h: History, h1: History, hello: ClientHello, m: Mac)
    requires HistoryGrows(h, h1) && TagsSound(env, h) && HelloSound(env, h, hello) && MacAtom(m) in Atoms(HelloMsg(hello))
    ensures TagSound(env, h1, m)
  {
    hide TagSound, HistoryGrows, TagsSound, HeldSound;
    if hello.cookie.Some? && m == hello.cookie.value.tag {
      TagKnown(env, h, m);
    } else {
      HeldTag(env, h, hello.resumption.value);
    }
    TagGrows(env, h, h1, m);
  }

  lemma ClientTags(env: Env, h: History, h1: History, c1: C.Client, actions: seq<Action>)
    requires HistoryGrows(h, h1) && TagsSound(env, h) && h1.known == h.known + SentAtoms(actions)
    requires CS.HandshakeFramesSound(c1, actions)
    requires c1.handshake.Some? ==> CI.HandshakeSound(env.client, c1.handshake.value, c1.session)
    requires c1.handshake.Some? ==> HelloSound(env, h, c1.handshake.value.hello)
    requires c1.session.Some? ==> CI.KeyOf(c1.session.value) in h1.begun
    ensures TagsSound(env, h1)
  {
    hide TagSound, HistoryGrows, TagsSound, HelloSound, CI.HandshakeSound, CS.HandshakeFramesSound;
    forall m | MacAtom(m) in SentAtoms(actions)
      ensures TagSound(env, h1, m)
    {
      if c1.handshake.Some? {
        HelloGrows(env, h, h1, c1.handshake.value.hello);
      }
      ClientTag(env, h1, c1, actions, m);
      if MacAtom(m) in Atoms(HelloMsg(c1.handshake.value.hello)) {
        HelloTag(env, h, h1, c1.handshake.value.hello, m);
      }
    }
    TagsGrow(env, h, h1, actions);
  }

  lemma ClientSideKept(env: Env, h: History, h1: History, c0: C.Client, c1: C.Client, event: C.ClientEvent)
    requires HistoryGrows(h, h1) && ClientSide(env, h, c0) && CredentialsSound(env, h)
    requires CS.TicketsEvolve(c0, c1, event) && CH.HelloEvolves(env.client, c0, c1, event)
    requires event.TunnelFrame? ==> Deliverable(event.frame, h.known)
    requires c0.session.Some? ==> c0.session.value.opener.key.dir.ServerToClient?
    requires c1.session.Some? ==> CI.KeyOf(c1.session.value) in h1.begun
    ensures ClientSide(env, h1, c1) && (c1.handshake.Some? ==> HelloSound(env, h, c1.handshake.value.hello))
  {
    hide HeldSound, HelloSound, HistoryGrows, CredentialsSound, Deliverable, CS.TicketsEvolve, CH.HelloEvolves;
    TicketsSound(env, h, c0, c1, event);
    forall p | p in c1.byPeer && c1.byPeer[p].ticket.Some?
      ensures HeldSound(env, h1, c1.byPeer[p].ticket.value.credential)
    {
      HeldGrows(env, h, h1, c1.byPeer[p].ticket.value.credential);
    }
    if c1.handshake.Some? {
      NewHelloSound(env, h, c0, c1, event);
      HelloGrows(env, h, h1, c1.handshake.value.hello);
    }
  }

  lemma ServerSideStays(env: Env, h: History, h1: History, s: S.Server)
    requires HistoryGrows(h, h1) && ServerSide(env, h, s)
    ensures ServerSide(env, h1, s)
  {
    hide Entitled, SH.Presents;
    forall sid | sid in s.pending
      ensures Entitled(h1, s.pending[sid].hello, s.pending[sid].resumeFrom.Some?)
    {
      EntitledGrows(h, h1, s.pending[sid].hello, s.pending[sid].resumeFrom.Some?);
    }
  }

  lemma CredentialsStay(env: Env, h: History, h1: History)
    requires CredentialsSound(env, h)
    requires forall b :: BodyAtom(b) in h1.known && BodyAtom(b) !in h.known ==> CredentialBody(env, b)
    ensures CredentialsSound(env, h1)
  {
  }

  lemma ClientStepHandshake(env: Env, sys: System, event: C.ClientEvent, now: Time, draws: C.ClientDraws)
    requires SystemInv(env, sys) && ValidEnv(env) && Enabled(env, sys, ClientStep(event, now, draws)) && HandshakeInv(env, sys)
    ensures HandshakeInv(env, Next(env, sys, ClientStep(event, now, draws)))
  {
    var o := C.ClientStep(env.client, sys.client, event, now, draws);
    var h, h1 := sys.history, AfterClient(sys.history, event, o);
    TT.ClientSetting(env, sys, event, now, draws);
    CH.ClientStepEvolves(env.client, sys.client, event, now, draws);
    ClientEventKept(env, h, h1, sys.client, sys.server, o, event, draws);
  }

  lemma ClientShape(env: C.ClientEnv, c: C.Client)
    requires CI.ClientInv(env, c)
    ensures c.handshake.Some? ==> CI.HandshakeSound(env, c.handshake.value, c.session)
    ensures c.session.Some? ==> c.session.value.opener.key.dir.ServerToClient? && c.session.value.sealer.key.dir.ClientToServer?
  {
  }

  lemma FramesOf(o: C.ClientOutcome)
    requires o.reply.Ok? ==> CS.HandshakeFramesSound(o.client, o.reply.actions)
    ensures CS.HandshakeFramesSound(o.client, ActionsOf(o.reply))
  {
  }

  lemma ClientEventKept(env: Env, h: History, h1: History, c0: C.Client, s: S.Server, o: C.ClientOutcome,
                        event: C.ClientEvent, draws: C.ClientDraws)
    requires TC.Setting(env.client, h, h1, c0, o, event, draws) && h1 == AfterClient(h, event, o)
    requires CH.HelloEvolves(env.client, c0, o.client, event) && CH.SessionArises(env.client, c0, o.client, event)
    requires TagsSound(env, h) && CredentialsSound(env, h) && ClientSide(env, h, c0) && ServerSide(env, h, s) && KeysSound(h)
    ensures TagsSound(env, h1) && CredentialsSound(env, h1) && ClientSide(env, h1, o.client) && ServerSide(env, h1, s) && KeysSound(h1)
  {
    hide TagSound, HistoryGrows, TagsSound, CredentialsSound, ClientSide, ServerSide, KeysSound, HelloSound, CH.HelloEvolves,
         CH.SessionArises, Deliverable, HistorySound, ClientLink, CI.ClientInv, CI.HandshakeSound, CS.TicketsEvolve, CS.RecordsSound,
         CS.SessionEvolves, CS.HandshakeFramesSound, SentAtoms;
    ClientShape(env.client, c0);
    ClientShape(env.client, o.client);
    FramesOf(o);
    ClientSideKept(env, h, h1, c0, o.client, event);
    BegunOffered(env, h, h1, c0, o.client, event);
    ServerSideStays(env, h, h1, s);
    ClientTags(env, h, h1, o.client, ActionsOf(o.reply));
    TC.RecordsKeyed(c0, o.client, CN.SentRecords(o.reply), o.fates);
    TC.NewBodiesUp(h, h1, o);
    CredentialsStay(env, h, h1);
  }

  // ---------------------------------------------------------------- a server event

  lemma ServerTag(env: Env, h1: History, s1: S.Server, actions: seq<Action>, m: Mac)
    requires SH.AllMade(env.server, actions) && MacAtom(m) in SentAtoms(actions)
    requires forall a :: a in actions && a.SendFrame? ==> a.frame.RecordMsg? || a.frame.ServerHelloMsg? || a.frame.RetryMsg?
    requires forall a :: a in actions && a.SendFrame? && a.frame.ServerHelloMsg? ==>
               a.frame.sid in s1.pending && s1.pending[a.frame.sid].serverHello == a.frame.serverHello
    requires forall sid :: sid in s1.pending ==> SI.PendingSound(env.server, s1.pending[sid], sid)
    requires OffersOf(s1.pending) <= h1.offered
    ensures TagSound(env, h1, m)
  {
    hide CredentialSent;
    var a := SentTag(actions, m);
    assert SH.Made(env.server, a.frame);
    if a.frame.ServerHelloMsg? {
      var p := s1.pending[a.frame.sid];
      assert Offer(a.frame.sid, p.hello, p.serverHello) in OffersOf(s1.pending);
    }
  }

  lemma ServerCredential(env: Env, h: History, h1: History, actions: seq<Action>)
    requires SH.AllMade(env.server, actions) && CredentialsSound(env, h) && h1.known == h.known + SentAtoms(actions)
    ensures CredentialsSound(env, h1)
  {
    forall b | BodyAtom(b) in h1.known && BodyAtom(b) !in h.known
      ensures CredentialBody(env, b)
    {
      var a :| a in actions && a.SendFrame? && BodyAtom(b) in Atoms(a.frame);
      assert SH.Made(env.server, a.frame);
    }
  }

  /** A hello that the server answers with a resumption presents what it has sealed. */
  lemma NewPendingEntitled(env: Env, h: History, hello: ClientHello, p: S.Pending)
    requires TagsSound(env, h) && Deliverable(HelloMsg(hello), h.known) && p.hello == hello && SH.Presents(env.server, p)
    ensures Entitled(h, hello, p.resumeFrom.Some?)
  {
    hide CredentialSent;
    if p.resumeFrom.Some? {
      var c := hello.resumption.value;
      assert MacAtom(c.tag) in Atoms(HelloMsg(hello));
      assert TagSound(env, h, c.tag) && Credential(c.body, c.tag) == c;
    }
  }

  lemma ServerSideKept(env: Env, h: History, h1: History, s0: S.Server, s1: S.Server, event: S.ServerEvent)
    requires HistoryGrows(h, h1) && ServerSide(env, h, s0) && SH.PendsByHello(env.server, s0, s1, event)
    requires TagsSound(env, h) && (event.TunnelFrame? ==> Deliverable(event.frame, h.known))
    requires OffersOf(s1.pending) <= h1.offered
    ensures ServerSide(env, h1, s1)
  {
    hide Entitled, SH.Presents, TagsSound, Deliverable, HistoryGrows;
    forall sid | sid in s1.pending
      ensures Offer(sid, s1.pending[sid].hello, s1.pending[sid].serverHello) in h1.offered
      ensures SH.Presents(env.server, s1.pending[sid])
      ensures Entitled(h1, s1.pending[sid].hello, s1.pending[sid].resumeFrom.Some?)
    {
      assert Offer(sid, s1.pending[sid].hello, s1.pending[sid].serverHello) in OffersOf(s1.pending);
      if !(sid in s0.pending && s1.pending[sid] == s0.pending[sid]) {
        NewPendingEntitled(env, h, event.frame.hello, s1.pending[sid]);
      }
      EntitledGrows(h, h1, s1.pending[sid].hello, s1.pending[sid].resumeFrom.Some?);
    }
  }

  /** A finish that verifies was made by the client, for the session it derived. */
  lemma FinishBegun(env: Env, h: History, p: S.Pending, sid: SessionId, finish: ClientFinish)
    requires TagsSound(env, h) && Deliverable(FinishMsg(sid, finish), h.known) && env.server.psk == env.client.psk
    requires FinishProblem(env.server.psk, finish, p.hello, p.serverHello, sid).None?
    ensures SessionKey(env.client.psk, p.hello, p.serverHello, sid) in h.begun
  {
    hide CredentialSent;
    assert MacAtom(finish.tag) in Atoms(FinishMsg(sid, finish));
    assert TagSound(env, h, finish.tag);
  }

  lemma AcceptedBegun(env: Env, h: History, s0: S.Server, s1: S.Server, event: S.ServerEvent, draws: S.ServerDraws, sid: SessionId)
    requires TagsSound(env, h) && ServerSide(env, h, s0) && env.server.psk == env.client.psk
    requires event.TunnelFrame? ==> Deliverable(event.frame, h.known)
    requires SH.BeginsByFinish(env.server, s0, s1, event) && SE.SessionEvolves(env.server, s0, s1, sid, event, draws.conv)
    requires forall x :: x in s0.pending ==> SI.PendingSound(env.server, s0.pending[x], x)
    requires sid in s1.sessions && sid !in s0.sessions
    ensures var key := SI.KeyOf(s1.sessions[sid]);
            key in h.begun && Entitled(h, key.hello, key.serverHello.body.resumed)
  {
    hide Entitled, SH.Presents, TagsSound, Deliverable;
    FinishBegun(env, h, s0.pending[sid], sid, event.frame.finish);
  }

  lemma KeysKept(env: Env, h: History, h1: History, s0: S.Server, o: S.ServerOutcome, event: S.ServerEvent, draws: S.ServerDraws)
    requires HistoryGrows(h, h1) && KeysSound(h) && h1.begun == h.begun
    requires h1.accepted == h.accepted + AcceptedBy(o.server, ActionsOf(o.reply))
    requires TagsSound(env, h) && ServerSide(env, h, s0) && env.server.psk == env.client.psk
    requires event.TunnelFrame? ==> Deliverable(event.frame, h.known)
    requires SH.BeginsByFinish(env.server, s0, o.server, event) && SE.SessionsEvolve(env.server, s0, o.server, event, draws.conv)
    requires forall x :: x in s0.pending ==> SI.PendingSound(env.server, s0.pending[x], x)
    requires o.reply.Ok? ==> SE.EstablishedSound(env.server, s0, o.server, o.reply.actions)
    ensures KeysSound(h1)
  {
    hide Entitled, HistoryGrows, TagsSound, ServerSide, Deliverable, SH.BeginsByFinish, SI.PendingSound, AcceptedBy, SE.SessionEvolves;
    OfferedGrows(h, h1);
    forall key | key in h1.accepted
      ensures key in h1.begun && Entitled(h1, key.hello, key.serverHello.body.resumed)
    {
      if key in AcceptedBy(o.server, ActionsOf(o.reply)) {
        var a := AcceptedAction(o.server, ActionsOf(o.reply), key);
        assert SE.SessionEvolves(env.server, s0, o.server, a.sid, event, draws.conv);
        AcceptedBegun(env, h, s0, o.server, event, draws, a.sid);
      }
      EntitledGrows(h, h1, key.hello, key.serverHello.body.resumed);
    }
  }

  lemma OfferedGrows(h: History, h1: History)
    requires HistoryGrows(h, h1)
    ensures h.offered <= h1.offered && h.known <= h1.known
  {
  }

  lemma ClientSideStays(env: Env, h: History, h1: History, c: C.Client)
    requires HistoryGrows(h, h1) && ClientSide(env, h, c) && h1.begun == h.begun
    ensures ClientSide(env, h1, c)
  {
    hide HeldSound, HelloSound, HistoryGrows;
    if c.handshake.Some? {
      HelloGrows(env, h, h1, c.handshake.value.hello);
    }
    forall p | p in c.byPeer && c.byPeer[p].ticket.Some?
      ensures HeldSound(env, h1, c.byPeer[p].ticket.value.credential)
    {
      HeldGrows(env, h, h1, c.byPeer[p].ticket.value.credential);
    }
  }

  lemma ServerTags(env: Env, h: History, h1: History, s1: S.Server, actions: seq<Action>)
    requires HistoryGrows(h, h1) && TagsSound(env, h) && h1.known == h.known + SentAtoms(actions)
    requires SH.AllMade(env.server, actions)
    requires forall a :: a in actions && a.SendFrame? ==> a.frame.RecordMsg? || a.frame.ServerHelloMsg? || a.frame.RetryMsg?
    requires forall a :: a in actions && a.SendFrame? && a.frame.ServerHelloMsg? ==>
               a.frame.sid in s1.pending && s1.pending[a.frame.sid].serverHello == a.frame.serverHello
    requires forall sid :: sid in s1.pending ==> SI.PendingSound(env.server, s1.pending[sid], sid)
    requires OffersOf(s1.pending) <= h1.offered
    ensures TagsSound(env, h1)
  {
    hide TagSound, HistoryGrows, TagsSound, SH.AllMade, SI.PendingSound;
    forall m | MacAtom(m) in SentAtoms(actions)
      ensures TagSound(env, h1, m)
    {
      ServerTag(env, h1, s1, actions, m);
    }
    TagsGrow(env, h, h1, actions);
  }

  lemma ServerEventKept(env: Env, h: History, h1: History, s0: S.Server, c: C.Client, o: S.ServerOutcome,
                        event: S.ServerEvent, draws: S.ServerDraws)
    requires TS.ServerSetting(env.server, h, h1, s0, o, event, draws) && h1 == AfterServer(h, s0, event, draws.conv, o)
    requires SI.PendingTable(env.server, s0.pending) && SI.PendingTable(env.server, o.server.pending)
    requires env.server.psk == env.client.psk && (event.TunnelFrame? ==> Deliverable(event.frame, h.known))
    requires SH.BeginsByFinish(env.server, s0, o.server, event) && SH.PendsByHello(env.server, s0, o.server, event)
    requires o.reply.Ok? ==> SH.AllMade(env.server, o.reply.actions)
    requires TagsSound(env, h) && CredentialsSound(env, h) && ClientSide(env, h, c) && ServerSide(env, h, s0) && KeysSound(h)
    ensures TagsSound(env, h1) && CredentialsSound(env, h1) && ClientSide(env, h1, c) && ServerSide(env, h1, o.server) && KeysSound(h1)
  {
    hide TagSound, HistoryGrows, TagsSound, CredentialsSound, ClientSide, ServerSide, KeysSound, SH.BeginsByFinish, SH.PendsByHello,
         SH.AllMade, Deliverable, HistorySound, SE.SessionsEvolve, AcceptedBy, OffersOf, SI.PendingSound, SI.Distinct;
    var actions := ActionsOf(o.reply);
    NoneMade(env);
    ServerCredential(env, h, h1, actions);
    ServerTags(env, h, h1, o.server, actions);
    ServerSideKept(env, h, h1, s0, o.server, event);
    KeysKept(env, h, h1, s0, o, event, draws);
    ClientSideStays(env, h, h1, c);
  }

  lemma NoneMade(env: Env)
    ensures SH.AllMade(env.server, [])
  {
  }

  lemma ServerStepHandshake(env: Env, sys: System, event: S.ServerEvent, now: Time, draws: S.ServerDraws)
    requires SystemInv(env, sys) && ValidEnv(env) && Enabled(env, sys, ServerStep(event, now, draws)) && HandshakeInv(env, sys)
    ensures HandshakeInv(env, Next(env, sys, ServerStep(event, now, draws)))
  {
    hide SH.BeginsByFinish, SH.PendsByHello, SH.AllMade, TagsSound, CredentialsSound, ClientSide, ServerSide, KeysSound;
    var o := S.ServerStep(env.server, sys.server, event, now, draws);
    var h, h1 := sys.history, AfterServer(sys.history, sys.server, event, draws.conv, o);
    TT.ServerSetting(env, sys, event, now, draws);
    SH.ServerStepBegins(env.server, sys.server, event, now, draws);
    SH.ServerStepMade(env.server, sys.server, event, now, draws);
    ServerEventKept(env, h, h1, sys.server, sys.client, o, event, draws);
  }

  // ---------------------------------------------------------------- whole runs

  lemma {:induction false} RunHandshake(env: Env, steps: seq<Step>)
    requires ValidEnv(env) && ValidRun(env, steps)
    ensures HandshakeInv(env, Run(env, steps))
    decreases |steps|
  {
    hide HandshakeInv;
    if steps == [] {
      NewHandshake(env);
    } else {
      var before := steps[..|steps| - 1];
      RunHandshake(env, before);
      TT.RunInv(env, before);
      match steps[|steps| - 1]
      case ClientStep(event, now, draws) => ClientStepHandshake(env, Run(env, before), event, now, draws);
      case ServerStep(event, now, draws) => ServerStepHandshake(env, Run(env, before), event, now, draws);
    }
  }

  lemma NewHandshake(env: Env)
    ensures HandshakeInv(env, NewSystem())
  {
  }

  /** The server's side of the agreement. Every session that the server has accepted
      is one that this client has derived, under the same key, hello, server hello
      and identifier; every session the client has derived rests on a server hello
      that the server made for that very hello. Conversations pass only to such a
      session, and only if its hello presents a credential that the server has
      sealed in the session it names. */
  lemma AcceptedWereBegun(env: Env, steps: seq<Step>)
    requires ValidEnv(env) && ValidRun(env, steps)
    ensures var sys := Run(env, steps); var h := sys.history;
            && (forall key :: key in h.accepted ==> key in h.begun)
            && (forall key :: key in h.begun ==> Offer(key.sid, key.hello, key.serverHello) in h.offered)
            && (forall sid :: sid in sys.server.sessions ==>
                  var key := SI.KeyOf(sys.server.sessions[sid]);
                  && key in h.begun
                  && (sys.server.sessions[sid].resumedFrom.Some? ==>
                        key.hello.resumption.Some? && CredentialSent(h, key.hello.resumption.value)))
            && (forall sid :: sid in sys.server.pending && sys.server.pending[sid].resumeFrom.Some? ==>
                  var hello := sys.server.pending[sid].hello;
                  && hello.resumption.Some? && CredentialSent(h, hello.resumption.value)
                  && sys.server.pending[sid].resumeFrom == Some(hello.resumption.value.body.session))
  {
    hide CredentialSent;
    RunHandshake(env, steps);
    TT.RunInv(env, steps);
    var sys := Run(env, steps);
    forall sid | sid in sys.server.sessions
      ensures var key := SI.KeyOf(sys.server.sessions[sid]);
              key in sys.history.accepted && key.serverHello.body.resumed == sys.server.sessions[sid].resumedFrom.Some?
    {
      assert ServerSessionLink(sys.history, sys.server.sessions[sid]) && SI.SessionSound(env.server, sys.server.sessions[sid], sid);
    }
  }
}
