/** A client event keeps the agreement between engines and history. */
module TunnelClient {
  import opened Protocol
  import opened Messages
  import opened Sessions
  import opened Tunnel
  import opened TunnelInvariant
  import opened TunnelLogs
  import C = ClientSpec
  import CI = ClientInvariants
  import CN = ClientSending
  import CS = ClientSteps
  import S = ServerSpec
  import SI = ServerInvariants

  /** What is known of a client event: the state before it, its outcome, and the
      history around it. */
  ghost predicate ClientEventSound(env: C.ClientEnv, h: History, h1: History, c0: C.Client, o: C.ClientOutcome,
                                   event: C.ClientEvent, draws: C.ClientDraws) {
    && h1 == AfterClient(h, event, o)
    && CS.StepSound(env, c0, o, event, draws)
    && CI.FreshDraws(draws.convs, h.peerOf.Keys)
    && (draws.hello.Some? ==> draws.hello.value.clientNonce !in h.nonces)
  }

  // ---------------------------------------------------------------- growth

  lemma OwnersGrow(h: History, c0: C.Client, c1: C.Client)
    requires c0.session.Some? ==> SessionLink(h, c0.session.value)
    requires CS.SessionEvolves(c0, c1)
    ensures SubMap(h.owner, h.owner + OwnersOf(c1))
  {
  }

  lemma PeersGrow(h: History, c0: C.Client, c1: C.Client, draws: C.ClientDraws)
    requires forall id :: id in c0.byId ==> id in h.peerOf && h.peerOf[id] == c0.byId[id]
    requires CN.OnlyDrawn(c0, c1, draws.convs) && CS.PeersKept(c0, c1) && CI.FreshDraws(draws.convs, h.peerOf.Keys)
    ensures SubMap(h.peerOf, h.peerOf + c1.byId)
  {
    forall id | id in h.peerOf && id in c1.byId
      ensures c1.byId[id] == h.peerOf[id]
    {
      if id !in c0.byId {
        assert false;
      }
    }
  }

  /** A carried body is new: its number was never used. */
  lemma CarriedGrow(h: History, c0: C.Client, c1: C.Client, frames: seq<Frame>, fates: seq<C.Fate>)
    requires c0.session.Some? ==> SessionLink(h, c0.session.value)
    requires forall b :: CarriedSound(h, b)
    requires CS.SessionEvolves(c0, c1) && CS.RecordsSound(c0, c1, frames, fates)
    ensures SubMap(h.carried, h.carried + CarriedBy(fates))
  {
    forall b | b in CarriedBy(fates)
      ensures b !in h.carried
    {
      var i := CarriedFate(fates, b);
      assert CI.FateSound(c1, fates[i], frames);
      assert fates[i].frame in frames;
      assert CI.Labelled(c1, c0.session.value.sealer.next, c1.session.value.sealer.next, fates[i].frame, fates);
      assert CarriedSound(h, b);
    }
  }

  lemma ClientHistoryGrows(env: C.ClientEnv, h: History, h1: History, c0: C.Client, o: C.ClientOutcome,
                           event: C.ClientEvent, draws: C.ClientDraws)
    requires ClientEventSound(env, h, h1, c0, o, event, draws)
    requires HistorySound(h) && ClientLink(h, c0)
    ensures HistoryGrows(h, h1)
  {
    OwnersGrow(h, c0, o.client);
    PeersGrow(h, c0, o.client, draws);
    CarriedGrow(h, c0, o.client, CN.SentRecords(o.reply), o.fates);
  }

  // ---------------------------------------------------------------- reading

  /** A frame that authenticates was sealed: its body is known and sound. */
  lemma AuthenticKnown(h: History, o: Opener, frame: Frame)
    requires KnownSound(h) && Deliverable(frame, h.known) && Authentic(o, frame)
    ensures BodyAtom(frame.body) in h.known && BodySound(h, frame.body)
  {
    assert BodyAtom(frame.body) in Atoms(frame);
  }

  lemma TicketsKept(h: History, c0: C.Client, c1: C.Client, event: C.ClientEvent)
    requires KnownSound(h) && ClientLink(h, c0) && CS.TicketsEvolve(c0, c1, event) && CI.Tables(c0.byPeer, c0.byId)
    requires event.TunnelFrame? ==> Deliverable(event.frame, h.known)
    requires c0.session.Some? ==> c0.session.value.opener.key == DirectionKey(CI.KeyOf(c0.session.value), ServerToClient)
    ensures forall p :: p in c1.byPeer && c1.byPeer[p].ticket.Some? ==>
              From(h, c1.byPeer[p].ticket.value.credential.body.conversation, c1.byPeer[p].id)
  {
    forall p | p in c1.byPeer && c1.byPeer[p].ticket.Some?
      ensures From(h, c1.byPeer[p].ticket.value.credential.body.conversation, c1.byPeer[p].id)
    {
      var id, t := c1.byPeer[p].id, c1.byPeer[p].ticket.value;
      if CS.TicketHeld(c0, id, t) {
        TicketHeldFrom(h, c0, id, t);
      } else {
        assert CS.TicketReceived(c0, event, id, t);
        AuthenticKnown(h, c0.session.value.opener, event.frame);
      }
    }
  }

  lemma TicketHeldFrom(h: History, c0: C.Client, id: ConvId, t: C.Ticket)
    requires ClientLink(h, c0) && CS.TicketHeld(c0, id, t) && CI.Tables(c0.byPeer, c0.byId)
    ensures From(h, t.credential.body.conversation, id)
  {
  }

  // ---------------------------------------------------------------- sealing

  /** The bodies of this event's records, against the history after it. */
  lemma NewClientBody(h1: History, c0: C.Client, c1: C.Client, frames: seq<Frame>, fates: seq<C.Fate>, f: Frame)
    requires CS.RecordsSound(c0, c1, frames, fates) && f in frames
    requires c0.session.Some? && c1.session.Some?
    requires c1.session.value.sealer.key.dir.ClientToServer? && CI.KeyOf(c1.session.value).hello.clientNonce in h1.nonces
    requires SubMap(OwnersOf(c1), h1.owner) && SubMap(CarriedBy(fates), h1.carried)
    requires forall p :: p in c1.byPeer && c1.byPeer[p].ticket.Some? ==>
               From(h1, c1.byPeer[p].ticket.value.credential.body.conversation, c1.byPeer[p].id)
    requires CI.Tables(c1.byPeer, c1.byId)
    ensures f.RecordMsg? && f.body.Sealed? && BodySound(h1, f.body)
  {
    var from, to := c0.session.value.sealer.next, c1.session.value.sealer.next;
    assert CI.Labelled(c1, from, to, f, fates);
    var key, hd := CI.KeyOf(c1.session.value), f.header.handle.value;
    var conv := c1.session.value.handles.byHandle[hd];
    assert (key, hd) in OwnersOf(c1) && OwnersOf(c1)[(key, hd)] == conv;
    if f.header.ftype.Data? {
      var i :| 0 <= i < |fates| && fates[i].Carried? && fates[i].frame == f;
      FateCarried(fates, i);
      var j := CarriedFate(fates, f.body);
      assert CI.FateSound(c1, fates[j], frames);
      assert CI.Labelled(c1, from, to, fates[j].frame, fates);
    }
  }

  lemma NewNumbersUnique(h: History, h1: History, c0: C.Client, c1: C.Client, actions: seq<Action>, fates: seq<C.Fate>)
    requires NumbersUnique(h) && h1.known == h.known + SentAtoms(actions)
    requires CS.RecordsSound(c0, c1, Records(actions), fates) && CS.SessionEvolves(c0, c1)
    requires c0.session.Some? ==> SessionLink(h, c0.session.value)
    ensures NumbersUnique(h1)
  {
    forall b1, b2
      ensures SameNumberSame(h1, b1, b2)
    {
      assert SameNumberSame(h, b1, b2);
      if BodyAtom(b1) in h1.known && BodyAtom(b2) in h1.known && b1.Sealed? && b2.Sealed?
         && b1.key == b2.key && b1.header.number == b2.header.number {
        if BodyAtom(b1) !in h.known {
          NewBodyUnique(h, c0, c1, actions, fates, b1, b2);
        } else if BodyAtom(b2) !in h.known {
          NewBodyUnique(h, c0, c1, actions, fates, b2, b1);
        }
      }
    }
  }

  lemma NewBodyUnique(h: History, c0: C.Client, c1: C.Client, actions: seq<Action>, fates: seq<C.Fate>, b1: Body, b2: Body)
    requires CS.RecordsSound(c0, c1, Records(actions), fates) && CS.SessionEvolves(c0, c1)
    requires c0.session.Some? ==> SessionLink(h, c0.session.value)
    requires BodyAtom(b1) in SentAtoms(actions) && (BodyAtom(b2) in h.known || BodyAtom(b2) in SentAtoms(actions))
    requires b1.Sealed? && b2.Sealed? && b1.key == b2.key && b1.header.number == b2.header.number
    ensures b1 == b2
  {
    var f1 := SentBody(actions, b1);
    var from, to := c0.session.value.sealer.next, c1.session.value.sealer.next;
    assert CI.Labelled(c1, from, to, f1, fates);
    if BodyAtom(b2) in SentAtoms(actions) {
      var f2 := SentBody(actions, b2);
      assert CI.Labelled(c1, from, to, f2, fates);
      AscendingDistinct(Records(actions), f1, f2);
    }
  }

  lemma AscendingDistinct(frames: seq<Frame>, f1: Frame, f2: Frame)
    requires Ascending(frames) && f1 in frames && f2 in frames && f1.header.number == f2.header.number
    ensures f1 == f2
  {
    var i :| 0 <= i < |frames| && frames[i] == f1;
    var j :| 0 <= j < |frames| && frames[j] == f2;
    assert i < j || j < i || i == j;
  }

  // ---------------------------------------------------------------- the history after

  lemma KnownKept(h: History, h1: History, c0: C.Client, o: C.ClientOutcome)
    requires KnownSound(h) && HistoryGrows(h, h1)
    requires h1.known == h.known + SentAtoms(ActionsOf(o.reply))
    requires forall f :: f in CN.SentRecords(o.reply) ==> f.RecordMsg? && BodySound(h1, f.body)
    ensures KnownSound(h1)
  {
    forall b | BodyAtom(b) in h1.known && BodyAtom(b) !in h.known
      ensures BodySound(h1, b)
    {
      var f := SentBody(ActionsOf(o.reply), b);
    }
    KnownGrows(h, h1);
  }

  lemma CarriedKept(h: History, h1: History, c1: C.Client, o: C.ClientOutcome)
    requires HistoryGrows(h, h1) && forall b :: CarriedSound(h, b)
    requires h1.known == h.known + SentAtoms(ActionsOf(o.reply))
    requires h1.carried == h.carried + CarriedBy(o.fates) && SubMap(c1.byId, h1.peerOf)
    requires forall i :: 0 <= i < |o.fates| ==> CI.FateSound(c1, o.fates[i], CN.SentRecords(o.reply))
    requires c1.session.Some? ==> c1.session.value.sealer.key.dir.ClientToServer?
    requires forall f :: f in CN.SentRecords(o.reply) ==>
               c1.session.Some? && f.RecordMsg? && f.body.Sealed? && f.body.key == c1.session.value.sealer.key
    ensures forall b :: CarriedSound(h1, b)
  {
    forall b
      ensures CarriedSound(h1, b)
    {
      if b in CarriedBy(o.fates) {
        var i := CarriedFate(o.fates, b);
        assert CI.FateSound(c1, o.fates[i], CN.SentRecords(o.reply));
        RecordsAreSent(ActionsOf(o.reply), o.fates[i].frame);
      } else {
        assert CarriedSound(h, b);
      }
    }
  }

  lemma OwnersKept(h: History, h1: History, c1: C.Client)
    requires HistoryGrows(h, h1) && forall key, hd :: OwnerSound(h, key, hd)
    requires h1.owner == h.owner + OwnersOf(c1)
    requires c1.session.Some? && c1.session.value.handles.byHandle != map[] ==>
               CI.KeyOf(c1.session.value).hello.clientNonce in h1.nonces
    ensures forall key, hd :: OwnerSound(h1, key, hd)
  {
    forall key, hd
      ensures OwnerSound(h1, key, hd)
    {
      assert OwnerSound(h, key, hd);
    }
  }

  /** Everything the later lemmas use about one client event. */
  ghost predicate Setting(env: C.ClientEnv, h: History, h1: History, c0: C.Client, o: C.ClientOutcome,
                          event: C.ClientEvent, draws: C.ClientDraws) {
    && ClientEventSound(env, h, h1, c0, o, event, draws)
    && HistorySound(h) && ClientLink(h, c0) && HistoryGrows(h, h1)
    && CI.ClientInv(env, c0) && CI.ClientInv(env, o.client)
    && (event.TunnelFrame? ==> Deliverable(event.frame, h.known))
  }

  lemma NonceKnown(h: History, h1: History, c0: C.Client, c1: C.Client)
    requires ClientLink(h, c0) && HistoryGrows(h, h1) && CS.SessionEvolves(c0, c1)
    ensures c1.session.Some? ==> CI.KeyOf(c1.session.value).hello.clientNonce in h1.nonces
  {
  }

  lemma RecordsKeyed(c0: C.Client, c1: C.Client, frames: seq<Frame>, fates: seq<C.Fate>)
    requires CS.RecordsSound(c0, c1, frames, fates)
    ensures forall f :: f in frames ==>
              c1.session.Some? && f.RecordMsg? && f.body.Sealed? && f.body.key == c1.session.value.sealer.key
  {
    forall f | f in frames
      ensures c1.session.Some? && f.RecordMsg? && f.body.Sealed? && f.body.key == c1.session.value.sealer.key
    {
      assert CI.Labelled(c1, c0.session.value.sealer.next, c1.session.value.sealer.next, f, fates);
    }
  }

  lemma TicketsLinked(env: C.ClientEnv, h: History, h1: History, c0: C.Client, o: C.ClientOutcome,
                      event: C.ClientEvent, draws: C.ClientDraws)
    requires Setting(env, h, h1, c0, o, event, draws)
    ensures forall p :: p in o.client.byPeer && o.client.byPeer[p].ticket.Some? ==>
              From(h1, o.client.byPeer[p].ticket.value.credential.body.conversation, o.client.byPeer[p].id)
  {
    TicketsKept(h, c0, o.client, event);
    forall p | p in o.client.byPeer && o.client.byPeer[p].ticket.Some?
      ensures From(h1, o.client.byPeer[p].ticket.value.credential.body.conversation, o.client.byPeer[p].id)
    {
      FromGrows(h, h1, o.client.byPeer[p].ticket.value.credential.body.conversation, o.client.byPeer[p].id);
    }
  }

  lemma BodiesSound(env: C.ClientEnv, h: History, h1: History, c0: C.Client, o: C.ClientOutcome,
                    event: C.ClientEvent, draws: C.ClientDraws)
    requires Setting(env, h, h1, c0, o, event, draws)
    ensures forall f :: f in CN.SentRecords(o.reply) ==> f.RecordMsg? && f.body.Sealed? && BodySound(h1, f.body)
  {
    NonceKnown(h, h1, c0, o.client);
    TicketsLinked(env, h, h1, c0, o, event, draws);
    forall f | f in CN.SentRecords(o.reply)
      ensures f.RecordMsg? && f.body.Sealed? && BodySound(h1, f.body)
    {
      NewClientBody(h1, c0, o.client, CN.SentRecords(o.reply), o.fates, f);
    }
  }

  lemma ClientHistorySound(env: C.ClientEnv, h: History, h1: History, c0: C.Client, o: C.ClientOutcome,
                           event: C.ClientEvent, draws: C.ClientDraws)
    requires Setting(env, h, h1, c0, o, event, draws)
    ensures HistorySound(h1)
  {
    BodiesSound(env, h, h1, c0, o, event, draws);
    KnownKept(h, h1, c0, o);
    NonceKnown(h, h1, c0, o.client);
    RecordsKeyed(c0, o.client, CN.SentRecords(o.reply), o.fates);
    NewNumbersUnique(h, h1, c0, o.client, ActionsOf(o.reply), o.fates);
    CarriedKept(h, h1, o.client, o);
    OwnersKept(h, h1, o.client);
    RestKept(h, h1);
  }

  lemma RestKept(h: History, h1: History)
    requires HistoryGrows(h, h1) && h1.openedBy == h.openedBy && h1.replyFor == h.replyFor && h1.accepted == h.accepted
    requires (forall b :: ReplySound(h, b)) && (forall c :: OpenedSound(h, c)) && (forall key :: AcceptedSound(h, key))
    ensures (forall b :: ReplySound(h1, b)) && (forall c :: OpenedSound(h1, c)) && (forall key :: AcceptedSound(h1, key))
  {
    forall b
      ensures ReplySound(h1, b)
    {
      assert ReplySound(h, b);
    }
    forall c
      ensures OpenedSound(h1, c)
    {
      assert OpenedSound(h, c);
    }
    forall key
      ensures AcceptedSound(h1, key)
    {
      assert AcceptedSound(h, key);
    }
  }

  // ---------------------------------------------------------------- the client after

  lemma SessionLinked(h: History, h1: History, c0: C.Client, o: C.ClientOutcome)
    requires ClientLink(h, c0) && HistoryGrows(h, h1)
    requires h1.known == h.known + SentAtoms(ActionsOf(o.reply)) && h1.owner == h.owner + OwnersOf(o.client)
    requires CS.SessionEvolves(c0, o.client) && CS.RecordsSound(c0, o.client, CN.SentRecords(o.reply), o.fates)
    requires o.client.session.Some? && c0.session.Some?
    requires AllocateOnly(o.client.session.value.handles)
    ensures SessionLink(h1, o.client.session.value)
  {
    var s1 := o.client.session.value;
    forall b | BodyAtom(b) in h1.known && b.Sealed? && b.key == s1.sealer.key
      ensures b.header.number < s1.sealer.next
    {
      if BodyAtom(b) !in h.known {
        var f := SentBody(ActionsOf(o.reply), b);
        assert CI.Labelled(o.client, c0.session.value.sealer.next, s1.sealer.next, f, o.fates);
      }
    }
  }

  lemma SessionStarted(h: History, h1: History, c0: C.Client, o: C.ClientOutcome)
    requires ClientLink(h, c0) && HistoryGrows(h, h1)
    requires h1.known == h.known + SentAtoms(ActionsOf(o.reply)) && h1.owner == h.owner + OwnersOf(o.client)
    requires CS.SessionEvolves(c0, o.client) && CS.RecordsSound(c0, o.client, CN.SentRecords(o.reply), o.fates)
    requires o.client.session.Some? && c0.session.None?
    requires c0.handshake.Some? && c0.handshake.value.phase.AwaitingServerHello?
    requires o.client.session.value.sealer.key.dir.ClientToServer?
    ensures SessionLink(h1, o.client.session.value)
  {
    var s1 := o.client.session.value;
    assert OwnersOf(o.client) == map[];
    assert CN.SentRecords(o.reply) == [];
    forall b | BodyAtom(b) in h1.known && b.Sealed?
      ensures b.key != s1.sealer.key
    {
      if BodyAtom(b) !in h.known {
        var f := SentBody(ActionsOf(o.reply), b);
        assert false;
      }
    }
  }

  /** A new nonce has no history; an old one still awaiting its hello has got no
      session in this event. */
  lemma HandshakeLinked(h: History, h1: History, c0: C.Client, o: C.ClientOutcome, draws: C.ClientDraws)
    requires HistorySound(h) && HistoryGrows(h, h1) && o.client.handshake.Some?
    requires c0.handshake.Some? ==> HandshakeLink(h, c0.handshake.value)
    requires CS.NonceEvolves(c0, o.client, draws)
    requires draws.hello.Some? ==> draws.hello.value.clientNonce !in h.nonces
    requires o.client.handshake.value.hello.clientNonce in h1.nonces
    requires o.client.handshake.value.phase.AwaitingServerHello? ==> o.client.session.None?
    requires h1.owner == h.owner + OwnersOf(o.client)
    requires o.client.session.None? ==> forall b :: BodyAtom(b) in h1.known ==> BodyAtom(b) in h.known
    ensures HandshakeLink(h1, o.client.handshake.value)
  {
    var nonce := o.client.handshake.value.hello.clientNonce;
    if o.client.handshake.value.phase.AwaitingServerHello? {
      if nonce !in h.nonces {
        FreshUntouched(h, nonce);
      }
      assert Untouched(h, nonce);
      assert h1.owner == h.owner;
    }
  }

  lemma FreshUntouched(h: History, nonce: nat)
    requires HistorySound(h) && nonce !in h.nonces
    ensures Untouched(h, nonce)
  {
    forall key, hd | (key, hd) in h.owner
      ensures key.hello.clientNonce != nonce
    {
      assert OwnerSound(h, key, hd);
    }
    forall b | BodyAtom(b) in h.known && b.Sealed? && b.key.dir.ClientToServer?
      ensures b.key.session.hello.clientNonce != nonce
    {
      assert BodySound(h, b);
    }
  }

  lemma NoNewBodies(h: History, h1: History, c0: C.Client, o: C.ClientOutcome)
    requires h1.known == h.known + SentAtoms(ActionsOf(o.reply)) && o.client.session.None?
    requires CS.RecordsSound(c0, o.client, CN.SentRecords(o.reply), o.fates)
    ensures forall b :: BodyAtom(b) in h1.known ==> BodyAtom(b) in h.known
  {
    forall b | BodyAtom(b) in h1.known
      ensures BodyAtom(b) in h.known
    {
      if BodyAtom(b) !in h.known {
        var f := SentBody(ActionsOf(o.reply), b);
        assert false;
      }
    }
  }

  lemma ClientLinked(env: C.ClientEnv, h: History, h1: History, c0: C.Client, o: C.ClientOutcome,
                     event: C.ClientEvent, draws: C.ClientDraws)
    requires Setting(env, h, h1, c0, o, event, draws)
    ensures ClientLink(h1, o.client)
  {
    if o.client.session.Some? {
      if c0.session.Some? {
        SessionLinked(h, h1, c0, o);
      } else {
        SessionStarted(h, h1, c0, o);
      }
    }
    if o.client.handshake.Some? {
      if o.client.session.None? {
        NoNewBodies(h, h1, c0, o);
      }
      HandshakeLinked(h, h1, c0, o, draws);
    }
    TicketsLinked(env, h, h1, c0, o, event, draws);
  }

  lemma AgreedKept(h: History, h1: History, c0: C.Client, c1: C.Client, event: C.ClientEvent)
    requires KnownSound(h) && HistoryGrows(h, h1) && Agreed(h, c0)
    requires CS.SessionEvolves(c0, c1) && CS.BecomesReady(c0, c1, event)
    requires c0.mode.Ready? ==> c0.session.Some?
    requires c0.session.Some? ==> c0.session.value.opener.key == DirectionKey(CI.KeyOf(c0.session.value), ServerToClient)
    requires event.TunnelFrame? ==> Deliverable(event.frame, h.known)
    ensures Agreed(h1, c1)
  {
    if c1.mode.Ready? && c1.session.Some? && !c0.mode.Ready? {
      AuthenticKnown(h, c0.session.value.opener, event.frame);
    }
  }

  // ---------------------------------------------------------------- the logs after

  lemma DownsKept(h: History, c0: C.Client, event: C.ClientEvent, actions: seq<Action>, d: Down)
    requires HistorySound(h) && ClientLink(h, c0)
    requires c0.session.Some? ==> c0.session.value.opener.key == DirectionKey(CI.KeyOf(c0.session.value), ServerToClient)
    requires event.TunnelFrame? && event.frame.RecordMsg? && Deliverable(event.frame, h.known)
    requires CS.DeliveriesSound(c0, event, actions) && d in DownsOf(actions, event.frame.body)
    ensures DownSound(h, d)
  {
    DownAction(actions, event.frame.body, d);
    assert CS.Delivers(c0, event, d.localPeer, d.payload);
    AuthenticKnown(h, c0.session.value.opener, event.frame);
    var c := h.replyFor[d.body].conv;
    assert CarriedSound(h, h.openedBy[c]);
  }

  lemma ReportsKept(env: C.ClientEnv, h: History, h1: History, c0: C.Client, c1: C.Client, event: C.ClientEvent,
                    actions: seq<Action>, r: Reported)
    requires KnownSound(h) && HistoryGrows(h, h1) && (forall key :: AcceptedSound(h, key))
    requires c0.session.Some? ==> CI.SessionSound(env, c0.session.value, c0.byId)
    requires CS.SessionEvolves(c0, c1) && CS.EstablishedSound(env, c0, event, actions)
    requires event.TunnelFrame? ==> Deliverable(event.frame, h.known)
    requires c1.session.Some? && r in ReportsOf(actions, CI.KeyOf(c1.session.value))
    ensures ReportSound(h1, r)
  {
    var a := ReportAction(actions, CI.KeyOf(c1.session.value), r);
    AuthenticKnown(h, c0.session.value.opener, event.frame);
    assert AcceptedSound(h, r.key);
  }

  lemma ClientLogs(env: C.ClientEnv, h: History, h1: History, c0: C.Client, o: C.ClientOutcome,
                   event: C.ClientEvent, draws: C.ClientDraws)
    requires Setting(env, h, h1, c0, o, event, draws) && LogsSound(h)
    ensures LogsSound(h1)
  {
    var actions := ActionsOf(o.reply);
    forall d | d in h1.downs && d !in h.downs
      ensures DownSound(h1, d)
    {
      DownsKept(h, c0, event, actions, d);
      DownGrows(h, h1, d);
    }
    forall r | r in h1.reports && r !in h.reports
      ensures ReportSound(h1, r)
    {
      ReportsKept(env, h, h1, c0, o.client, event, actions, r);
    }
    LogsGrow(h, h1);
  }

  lemma DownGrows(h: History, h1: History, d: Down)
    requires HistoryGrows(h, h1) && DownSound(h, d)
    ensures DownSound(h1, d)
  {
  }

  // ---------------------------------------------------------------- the server, unmoved

  lemma ServerSessionUnmoved(h: History, h1: History, s: S.ServerSession)
    requires HistoryGrows(h, h1) && ServerSessionLink(h, s)
    requires forall b :: BodyAtom(b) in h1.known && BodyAtom(b) !in h.known && b.Sealed? ==> b.key != s.sealer.key
    ensures ServerSessionLink(h1, s)
  {
    forall hd | hd in s.handles.byHandle
      ensures (SI.KeyOf(s), hd) in h1.owner && From(h1, s.handles.byHandle[hd], h1.owner[(SI.KeyOf(s), hd)])
    {
      FromGrows(h, h1, s.handles.byHandle[hd], h.owner[(SI.KeyOf(s), hd)]);
    }
  }

  lemma ServerUnmoved(env: S.ServerEnv, h: History, h1: History, s: S.Server)
    requires HistoryGrows(h, h1) && ServerLink(h, s) && SI.SessionTable(env, s.sessions)
    requires h1.sids == h.sids && h1.accepted == h.accepted && h1.openedBy == h.openedBy
    requires forall b :: BodyAtom(b) in h1.known && BodyAtom(b) !in h.known && b.Sealed? ==> b.key.dir.ClientToServer?
    ensures ServerLink(h1, s)
  {
    forall sid | sid in s.sessions
      ensures ServerSessionLink(h1, s.sessions[sid])
    {
      assert SI.SessionSound(env, s.sessions[sid], sid);
      ServerSessionUnmoved(h, h1, s.sessions[sid]);
    }
  }

  lemma NewBodiesUp(h: History, h1: History, o: C.ClientOutcome)
    requires h1.known == h.known + SentAtoms(ActionsOf(o.reply))
    requires forall f :: f in CN.SentRecords(o.reply) ==>
               o.client.session.Some? && f.RecordMsg? && f.body.Sealed? && f.body.key == o.client.session.value.sealer.key
    requires o.client.session.Some? ==> o.client.session.value.sealer.key.dir.ClientToServer?
    ensures forall b :: BodyAtom(b) in h1.known && BodyAtom(b) !in h.known && b.Sealed? ==> b.key.dir.ClientToServer?
  {
    forall b | BodyAtom(b) in h1.known && BodyAtom(b) !in h.known && b.Sealed?
      ensures b.key.dir.ClientToServer?
    {
      var f := SentBody(ActionsOf(o.reply), b);
    }
  }
}
