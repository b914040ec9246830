/** A server event keeps the agreement between engines and history. */
module TunnelServer {
  import opened Base
  import opened Messages
  import opened Sessions
  import opened Tunnel
  import opened TunnelInvariant
  import opened TunnelLogs
  import opened TunnelClient
  import C = ClientSpec
  import S = ServerSpec
  import SI = ServerInvariants
  import SE = ServerEffects

  /** What is known of a server event: the state before it, its outcome, and the
      history around it. */
  ghost predicate ServerEventSound(env: S.ServerEnv, h: History, h1: History, s0: S.Server, o: S.ServerOutcome,
                                   event: S.ServerEvent, draws: S.ServerDraws) {
    && h1 == AfterServer(h, s0, event, draws.conv, o)
    && SE.StepSound(env, s0, o, event, draws)
    && (draws.conv.Some? ==> draws.conv.value !in h.openedBy)
    && (event.TunnelFrame? ==> Deliverable(event.frame, h.known))
    && SI.SessionTable(env, s0.sessions) && SI.SessionTable(env, o.server.sessions)
  }

  // ---------------------------------------------------------------- reading

  /** A record the server authenticates comes from the owner of its handle. */
  lemma ReadsOwned(env: S.ServerEnv, h: History, s: S.ServerSession, sid: SessionId, event: S.ServerEvent)
    requires KnownSound(h) && SI.SessionSound(env, s, sid) && SE.Reads(s, sid, event) && Deliverable(event.frame, h.known)
    ensures BodyAtom(event.frame.body) in h.known && event.frame.body.Sealed?
    ensures event.frame.body.header == event.frame.header && event.frame.body.key.session == SI.KeyOf(s)
    ensures ClientBody(h, event.frame.body)
  {
    AuthenticKnown(h, s.opener, event.frame);
  }

  // ---------------------------------------------------------------- growth

  lemma OpensGrows(h: History, h1: History, s0: S.Server, o: S.ServerOutcome, event: S.ServerEvent, draws: S.ServerDraws)
    requires h1 == AfterServer(h, s0, event, draws.conv, o)
    requires draws.conv.Some? ==> draws.conv.value !in h.openedBy
    ensures SubMap(h.openedBy, h1.openedBy)
  {
  }

  /** Both ends of a server event, session by session. */
  ghost predicate Linked(env: S.ServerEnv, h: History, s0: S.Server, s1: S.Server, event: S.ServerEvent, draws: S.ServerDraws) {
    && SI.SessionTable(env, s0.sessions) && SI.SessionTable(env, s1.sessions)
    && (forall sid :: sid in s0.sessions ==> ServerSessionLink(h, s0.sessions[sid]))
    && (forall key :: key in h.accepted ==> key.sid !in s0.pending)
    && SE.SessionsEvolve(env, s0, s1, event, draws.conv)
  }

  /** A record sent by this event: an old acknowledgement. */
  ghost predicate Resent(h: History, f: Frame) {
    f.RecordMsg? && f.header.ftype.HandshakeAck? && BodyAtom(f.body) in h.known
  }

  /** Or the acknowledgement of a session that begins. */
  ghost predicate First(h: History, s0: S.Server, s1: S.Server, f: Frame) {
    && f.RecordMsg? && f.body.Sealed? && f.header.ftype.HandshakeAck? && f.header.handle.None? && f.header.number == 0
    && f.header.sid in s0.pending && f.header.sid !in s0.sessions && f.header.sid in s1.sessions
    && f == s1.sessions[f.header.sid].ack && f.body.key == s1.sessions[f.header.sid].sealer.key
    && f.body.header == f.header
  }

  /** Or a new record under a number never used. */
  ghost predicate Fresh(h: History, s0: S.Server, s1: S.Server, f: Frame, event: S.ServerEvent) {
    && f.RecordMsg? && f.body.Sealed? && !f.header.ftype.HandshakeAck?
    && f.header.sid in s0.sessions && f.header.sid in s1.sessions
    && s0.sessions[f.header.sid].sealer.next <= f.header.number < s1.sessions[f.header.sid].sealer.next
    && SE.Labelled(s1.sessions[f.header.sid], f, event)
    && f.body.key == s0.sessions[f.header.sid].sealer.key
    && BodyAtom(f.body) !in h.known
  }

  lemma SentKinds(env: S.ServerEnv, h: History, s0: S.Server, s1: S.Server, f: Frame, event: S.ServerEvent, draws: S.ServerDraws)
    requires Linked(env, h, s0, s1, event, draws) && SE.SentFor(s0, s1, f, event)
    ensures Resent(h, f) || First(h, s0, s1, f) || Fresh(h, s0, s1, f, event)
  {
    hide SI.HandlesSound, SI.KeyOf, SE.BoundBy, From;
    var sid := f.header.sid;
    assert SE.SessionEvolves(env, s0, s1, sid, event, draws.conv);
    if sid in s0.sessions {
      assert SI.SessionSound(env, s0.sessions[sid], sid);
      assert ServerSessionLink(h, s0.sessions[sid]);
    } else {
      assert SI.SessionSound(env, s1.sessions[sid], sid);
    }
  }

  lemma RepliesGrow(env: S.ServerEnv, h: History, s0: S.Server, s1: S.Server, frames: seq<Frame>, reply: ReplyOf,
                    event: S.ServerEvent, draws: S.ServerDraws)
    requires Linked(env, h, s0, s1, event, draws) && SE.RecordsSound(s0, s1, frames, event)
    requires forall b :: TunnelInvariant.ReplySound(h, b)
    ensures SubMap(h.replyFor, h.replyFor + RepliesOf(frames, reply))
  {
    forall b | b in RepliesOf(frames, reply)
      ensures b !in h.replyFor
    {
      assert TunnelInvariant.ReplySound(h, b);
      var f :| f in frames && f.RecordMsg? && f.header.ftype.Data? && f.body == b;
      SentKinds(env, h, s0, s1, f, event, draws);
    }
  }

  lemma AcceptedGrow(env: S.ServerEnv, h: History, s0: S.Server, s1: S.Server, actions: seq<Action>,
                     event: S.ServerEvent, draws: S.ServerDraws)
    requires Linked(env, h, s0, s1, event, draws) && SE.EstablishedSound(env, s0, s1, actions)
    ensures SubMap(h.accepted, h.accepted + AcceptedBy(s1, actions))
  {
    forall key | key in AcceptedBy(s1, actions)
      ensures key !in h.accepted
    {
      var a := AcceptedAction(s1, actions, key);
      assert SI.SessionSound(env, s1.sessions[a.sid], a.sid);
    }
  }

  /** Collecting from an empty reply adds nothing. */
  lemma GrowsBy(h: History, h1: History, s0: S.Server, o: S.ServerOutcome, event: S.ServerEvent, draws: S.ServerDraws)
    requires h1 == AfterServer(h, s0, event, draws.conv, o) && SubMap(h.openedBy, h1.openedBy)
    requires o.reply.Ok? ==> SubMap(h.accepted, h1.accepted) && SubMap(h.replyFor, h1.replyFor)
    ensures HistoryGrows(h, h1)
  {
    if !o.reply.Ok? {
      assert AcceptedBy(o.server, []) == map[];
      assert forall r :: RepliesOf(Records([]), r) == map[];
    }
  }

  lemma ServerHistoryGrows(env: S.ServerEnv, h: History, h1: History, s0: S.Server, o: S.ServerOutcome,
                           event: S.ServerEvent, draws: S.ServerDraws)
    requires h1 == AfterServer(h, s0, event, draws.conv, o) && SE.StepSound(env, s0, o, event, draws)
    requires draws.conv.Some? ==> draws.conv.value !in h.openedBy
    requires Linked(env, h, s0, o.server, event, draws) && forall b :: TunnelInvariant.ReplySound(h, b)
    ensures HistoryGrows(h, h1)
  {
    var actions := ActionsOf(o.reply);
    OpensGrows(h, h1, s0, o, event, draws);
    if o.reply.Ok? {
      AcceptedGrow(env, h, s0, o.server, actions, event, draws);
      if event.ServerDatagram? {
        RepliesGrow(env, h, s0, o.server, Records(actions), ReplyOf(event.conv, event.payload), event, draws);
      }
    }
    GrowsBy(h, h1, s0, o, event, draws);
  }

  // ---------------------------------------------------------------- handles

  /** A handle of a session names a conversation that the handle's owner opened. */
  ghost predicate HandleLinked(h: History, s: S.ServerSession, hd: Handle) {
    hd in s.handles.byHandle ==>
      (SI.KeyOf(s), hd) in h.owner && From(h, s.handles.byHandle[hd], h.owner[(SI.KeyOf(s), hd)])
  }

  /** Everything the later lemmas use about one server event. */
  ghost predicate ServerSetting(env: S.ServerEnv, h: History, h1: History, s0: S.Server, o: S.ServerOutcome,
                                event: S.ServerEvent, draws: S.ServerDraws) {
    && ServerEventSound(env, h, h1, s0, o, event, draws)
    && HistorySound(h) && HistoryGrows(h, h1)
    && Linked(env, h, s0, o.server, event, draws)
  }

  lemma BoundLinked(env: S.ServerEnv, h: History, h1: History, s0: S.Server, s1: S.Server, sid: SessionId, hd: Handle,
                    event: S.ServerEvent, draw: Option<ConvId>)
    requires KnownSound(h) && HistoryGrows(h, h1) && (event.TunnelFrame? ==> Deliverable(event.frame, h.known))
    requires SE.Opens(s0, s1, event, draw) ==> draw.value in h1.openedBy && h1.openedBy[draw.value] == event.frame.body
    requires sid in s0.sessions && sid in s1.sessions && SI.SessionSound(env, s0.sessions[sid], sid)
    requires ServerSessionLink(h, s0.sessions[sid])
    requires SE.SessionMoves(s0.sessions[sid], s1.sessions[sid], sid, event, draw)
    ensures HandleLinked(h1, s1.sessions[sid], hd)
  {
    if hd in s1.sessions[sid].handles.byHandle {
      var x0, c := s0.sessions[sid], s1.sessions[sid].handles.byHandle[hd];
      assert SE.BoundBy(x0, sid, hd, c, event, draw);
      if hd in x0.handles.byHandle && x0.handles.byHandle[hd] == c {
        FromGrows(h, h1, c, h.owner[(SI.KeyOf(x0), hd)]);
      } else {
        ReadsOwned(env, h, x0, sid, event);
        if event.frame.header.ftype.Data? {
          assert SE.Opens(s0, s1, event, draw);
        } else {
          FromGrows(h, h1, c, h.owner[(SI.KeyOf(x0), hd)]);
        }
      }
    }
  }

  lemma HandlesLinked(env: S.ServerEnv, h: History, h1: History, s0: S.Server, o: S.ServerOutcome,
                      event: S.ServerEvent, draws: S.ServerDraws, sid: SessionId, hd: Handle)
    requires ServerSetting(env, h, h1, s0, o, event, draws) && sid in o.server.sessions
    ensures HandleLinked(h1, o.server.sessions[sid], hd)
  {
    assert SE.SessionEvolves(env, s0, o.server, sid, event, draws.conv);
    if sid in s0.sessions {
      BoundLinked(env, h, h1, s0, o.server, sid, hd, event, draws.conv);
    }
  }

  // ---------------------------------------------------------------- sealing

  lemma {:induction false} EstablishedAccepted(s1: S.Server, actions: seq<Action>, a: Action)
    requires a in actions && a.SessionEstablished? && a.sid in s1.sessions
    ensures SI.KeyOf(s1.sessions[a.sid]) in AcceptedBy(s1, actions)
  {
    if actions[0] != a {
      EstablishedAccepted(s1, actions[1..], a);
    }
  }

  lemma BeginAccepted(h: History, h1: History, s0: S.Server, o: S.ServerOutcome, sid: SessionId)
    requires h1.accepted == h.accepted + AcceptedBy(o.server, ActionsOf(o.reply)) && SE.BeginsReported(s0, o)
    requires sid in o.server.sessions && sid !in s0.sessions
    ensures SI.KeyOf(o.server.sessions[sid]) in h1.accepted
  {
    var a :| a in o.reply.actions && a.SessionEstablished? && a.sid == sid;
    EstablishedAccepted(o.server, o.reply.actions, a);
  }

  lemma FreshBody(h1: History, s0: S.Server, s1: S.Server, frames: seq<Frame>, f: Frame, event: S.ServerEvent, h: History)
    requires Fresh(h, s0, s1, f, event) && f in frames
    requires SI.KeyOf(s1.sessions[f.header.sid]) in h1.accepted
    requires HandleLinked(h1, s1.sessions[f.header.sid], f.header.handle.value)
    requires s1.sessions[f.header.sid].sealer.key.dir.ServerToClient?
    requires event.ServerDatagram? ==> SubMap(RepliesOf(frames, ReplyOf(event.conv, event.payload)), h1.replyFor)
    ensures BodySound(h1, f.body)
  {
    if event.ServerDatagram? && f.header.ftype.Data? {
      var replies := RepliesOf(frames, ReplyOf(event.conv, event.payload));
      assert f.body in replies;
    }
  }

  lemma FirstBody(env: S.ServerEnv, h: History, h1: History, s0: S.Server, o: S.ServerOutcome, f: Frame)
    requires First(h, s0, o.server, f) && SI.SessionSound(env, o.server.sessions[f.header.sid], f.header.sid)
    requires h1.accepted == h.accepted + AcceptedBy(o.server, ActionsOf(o.reply)) && SE.BeginsReported(s0, o)
    ensures f.body.key.dir.ServerToClient? && BodySound(h1, f.body)
  {
    BeginAccepted(h, h1, s0, o, f.header.sid);
  }

  lemma FreshBodySound(env: S.ServerEnv, h: History, h1: History, s0: S.Server, o: S.ServerOutcome,
                       event: S.ServerEvent, draws: S.ServerDraws, f: Frame)
    requires ServerSetting(env, h, h1, s0, o, event, draws) && o.reply.Ok? && f in Records(o.reply.actions)
    requires Fresh(h, s0, o.server, f, event)
    ensures f.body.key.dir.ServerToClient? && BodySound(h1, f.body)
  {
    hide BodySound, AllocateOnly, SE.ActionsSound, SE.EstablishedSound, CarriedSound, OwnerSound, KnownSound, NumbersUnique;
    var sid := f.header.sid;
    assert SI.SessionSound(env, o.server.sessions[sid], sid);
    KeyAccepted(env, h, h1, s0, o, event, draws, sid);
    HandlesLinked(env, h, h1, s0, o, event, draws, sid, f.header.handle.value);
    FreshBody(h1, s0, o.server, Records(o.reply.actions), f, event, h);
  }

  lemma NewServerBody(env: S.ServerEnv, h: History, h1: History, s0: S.Server, o: S.ServerOutcome,
                      event: S.ServerEvent, draws: S.ServerDraws, f: Frame)
    requires ServerSetting(env, h, h1, s0, o, event, draws) && o.reply.Ok? && f in Records(o.reply.actions)
    ensures f.RecordMsg? && (BodyAtom(f.body) in h.known || (f.body.Sealed? && f.body.key.dir.ServerToClient? && BodySound(h1, f.body)))
  {
    hide BodySound, KnownSound, NumbersUnique, SI.SessionSound, SE.SentFor, HistoryGrows;
    SentKinds(env, h, s0, o.server, f, event, draws);
    if First(h, s0, o.server, f) {
      FirstBody(env, h, h1, s0, o, f);
    } else if Fresh(h, s0, o.server, f, event) {
      FreshBodySound(env, h, h1, s0, o, event, draws, f);
    }
  }

  /** A sealed body that became known was sealed by the server, and is sound. */
  lemma NewBodyDown(env: S.ServerEnv, h: History, h1: History, s0: S.Server, o: S.ServerOutcome,
                    event: S.ServerEvent, draws: S.ServerDraws, b: Body)
    requires ServerSetting(env, h, h1, s0, o, event, draws)
    requires BodyAtom(b) in h1.known && BodyAtom(b) !in h.known
    ensures b.Sealed? && b.key.dir.ServerToClient? && BodySound(h1, b)
  {
    var f := SentBody(ActionsOf(o.reply), b);
    NewServerBody(env, h, h1, s0, o, event, draws, f);
  }

  lemma ServerKnownKept(env: S.ServerEnv, h: History, h1: History, s0: S.Server, o: S.ServerOutcome,
                        event: S.ServerEvent, draws: S.ServerDraws)
    requires ServerSetting(env, h, h1, s0, o, event, draws)
    ensures KnownSound(h1)
    ensures forall b :: BodyAtom(b) in h1.known && BodyAtom(b) !in h.known ==> b.Sealed? && b.key.dir.ServerToClient?
  {
    forall b | BodyAtom(b) in h1.known && BodyAtom(b) !in h.known
      ensures b.Sealed? && b.key.dir.ServerToClient? && BodySound(h1, b)
    {
      NewBodyDown(env, h, h1, s0, o, event, draws, b);
    }
    KnownGrows(h, h1);
  }

  // ---------------------------------------------------------------- numbers

  /** No record of a session that is still pending has ever been sealed. */
  lemma PendingUnused(h: History, s0: S.Server, b: Body)
    requires KnownSound(h) && BodyAtom(b) in h.known
    requires forall key :: key in h.accepted ==> key.sid !in s0.pending
    ensures b.Sealed? && b.key.dir.ServerToClient? ==> b.key.session.sid !in s0.pending
  {
    assert BodySound(h, b);
  }

  lemma FirstPending(env: S.ServerEnv, h: History, s0: S.Server, s1: S.Server, f: Frame, event: S.ServerEvent, draws: S.ServerDraws)
    requires Linked(env, h, s0, s1, event, draws)
    ensures First(h, s0, s1, f) ==> f.body.key.dir.ServerToClient? && f.body.key.session.sid in s0.pending
  {
    if First(h, s0, s1, f) {
      assert SE.SessionEvolves(env, s0, s1, f.header.sid, event, draws.conv);
      assert SI.SessionSound(env, s1.sessions[f.header.sid], f.header.sid);
    }
  }

  lemma NewServerBodyUnique(env: S.ServerEnv, h: History, s0: S.Server, s1: S.Server, frames: seq<Frame>, f1: Frame, b2: Body,
                            event: S.ServerEvent, draws: S.ServerDraws)
    requires Linked(env, h, s0, s1, event, draws) && KnownSound(h)
    requires f1 in frames && SE.RecordsSound(s0, s1, frames, event) && BodyAtom(f1.body) !in h.known
    requires BodyAtom(b2) in h.known
    requires f1.body.Sealed? && b2.Sealed? && f1.body.key == b2.key
    ensures f1.body.header.number != b2.header.number
  {
    SentKinds(env, h, s0, s1, f1, event, draws);
    FirstPending(env, h, s0, s1, f1, event, draws);
    PendingUnused(h, s0, b2);
    if !First(h, s0, s1, f1) {
      assert ServerSessionLink(h, s0.sessions[f1.header.sid]);
    }
  }

  lemma BothNew(env: S.ServerEnv, h: History, s0: S.Server, s1: S.Server, frames: seq<Frame>, f1: Frame, f2: Frame,
                event: S.ServerEvent, draws: S.ServerDraws)
    requires Linked(env, h, s0, s1, event, draws)
    requires f1 in frames && f2 in frames && SE.RecordsSound(s0, s1, frames, event)
    requires BodyAtom(f1.body) !in h.known && BodyAtom(f2.body) !in h.known
    requires f1.body.Sealed? && f2.body.Sealed? && f1.body.header.number == f2.body.header.number
    ensures f1 == f2
  {
    SentKinds(env, h, s0, s1, f1, event, draws);
    SentKinds(env, h, s0, s1, f2, event, draws);
    AscendingDistinct(frames, f1, f2);
  }

  lemma ServerNumbersUnique(env: S.ServerEnv, h: History, h1: History, s0: S.Server, o: S.ServerOutcome,
                            event: S.ServerEvent, draws: S.ServerDraws)
    requires ServerSetting(env, h, h1, s0, o, event, draws)
    ensures NumbersUnique(h1)
  {
    var frames := Records(ActionsOf(o.reply));
    forall b1, b2
      ensures SameNumberSame(h1, b1, b2)
    {
      assert SameNumberSame(h, b1, b2);
      if BodyAtom(b1) in h1.known && BodyAtom(b2) in h1.known && b1.Sealed? && b2.Sealed?
         && b1.key == b2.key && b1.header.number == b2.header.number {
        if BodyAtom(b1) !in h.known && BodyAtom(b2) !in h.known {
          var f1 := SentBody(ActionsOf(o.reply), b1);
          var f2 := SentBody(ActionsOf(o.reply), b2);
          BothNew(env, h, s0, o.server, frames, f1, f2, event, draws);
        } else if BodyAtom(b1) !in h.known {
          var f1 := SentBody(ActionsOf(o.reply), b1);
          NewServerBodyUnique(env, h, s0, o.server, frames, f1, b2, event, draws);
        } else if BodyAtom(b2) !in h.known {
          var f2 := SentBody(ActionsOf(o.reply), b2);
          NewServerBodyUnique(env, h, s0, o.server, frames, f2, b1, event, draws);
        }
      }
    }
  }

  // ---------------------------------------------------------------- the history after

  lemma ServerCarriedKept(h: History, h1: History)
    requires HistoryGrows(h, h1) && h1.carried == h.carried && h1.owner == h.owner && h1.peerOf == h.peerOf
    requires (forall b :: CarriedSound(h, b)) && (forall key, hd :: OwnerSound(h, key, hd))
    ensures (forall b :: CarriedSound(h1, b)) && (forall key, hd :: OwnerSound(h1, key, hd))
  {
    forall b
      ensures CarriedSound(h1, b)
    {
      assert CarriedSound(h, b);
    }
    forall key, hd
      ensures OwnerSound(h1, key, hd)
    {
      assert OwnerSound(h, key, hd);
    }
  }

  /** The record that opens a conversation carries a client datagram. */
  lemma OpeningCarried(env: S.ServerEnv, h: History, s0: S.Server, s1: S.Server, event: S.ServerEvent, draw: Option<ConvId>)
    requires KnownSound(h) && SE.Opens(s0, s1, event, draw) && Deliverable(event.frame, h.known)
    requires SI.SessionSound(env, s0.sessions[event.frame.header.sid], event.frame.header.sid)
    requires SE.SessionEvolves(env, s0, s1, event.frame.header.sid, event, draw)
    ensures event.frame.body in h.carried
  {
    var sid, hd := event.frame.header.sid, event.frame.header.handle.value;
    assert SE.BoundBy(s0.sessions[sid], sid, hd, draw.value, event, draw);
    ReadsOwned(env, h, s0.sessions[sid], sid, event);
  }

  lemma OpenedCarried(env: S.ServerEnv, h: History, h1: History, s0: S.Server, o: S.ServerOutcome,
                      event: S.ServerEvent, draws: S.ServerDraws)
    requires ServerSetting(env, h, h1, s0, o, event, draws)
    ensures forall c :: OpenedSound(h1, c)
  {
    if SE.Opens(s0, o.server, event, draws.conv) {
      OpeningCarried(env, h, s0, o.server, event, draws.conv);
    }
    OpenedKept(h, h1, s0, o, event, draws.conv);
  }

  lemma OpenedKept(h: History, h1: History, s0: S.Server, o: S.ServerOutcome, event: S.ServerEvent, draw: Option<ConvId>)
    requires h1 == AfterServer(h, s0, event, draw, o) && forall c :: OpenedSound(h, c)
    requires SE.Opens(s0, o.server, event, draw) ==> event.frame.body in h.carried
    ensures forall c :: OpenedSound(h1, c)
  {
    forall c
      ensures OpenedSound(h1, c)
    {
      assert OpenedSound(h, c);
    }
  }

  lemma RepliesKept(env: S.ServerEnv, h: History, h1: History, s0: S.Server, o: S.ServerOutcome,
                    event: S.ServerEvent, draws: S.ServerDraws)
    requires ServerSetting(env, h, h1, s0, o, event, draws)
    ensures forall b :: TunnelInvariant.ReplySound(h1, b)
  {
    forall b
      ensures TunnelInvariant.ReplySound(h1, b)
    {
      assert TunnelInvariant.ReplySound(h, b);
      if b in h1.replyFor && b !in h.replyFor {
        var frames := Records(ActionsOf(o.reply));
        var f :| f in frames && f.RecordMsg? && f.header.ftype.Data? && f.body == b;
        RecordsAreSent(ActionsOf(o.reply), f);
        SentKinds(env, h, s0, o.server, f, event, draws);
        NewBodyDown(env, h, h1, s0, o, event, draws, b);
      }
    }
  }

  lemma AcceptedKept(env: S.ServerEnv, h: History, h1: History, s0: S.Server, o: S.ServerOutcome,
                     event: S.ServerEvent, draws: S.ServerDraws)
    requires ServerSetting(env, h, h1, s0, o, event, draws) && s0.pending.Keys <= h.sids
    ensures forall key :: AcceptedSound(h1, key)
  {
    forall key
      ensures AcceptedSound(h1, key)
    {
      assert AcceptedSound(h, key);
      if key in h1.accepted && key !in h.accepted {
        var a := AcceptedAction(o.server, ActionsOf(o.reply), key);
        assert SI.SessionSound(env, o.server.sessions[a.sid], a.sid);
      }
    }
  }

  lemma ServerHistorySound(env: S.ServerEnv, h: History, h1: History, s0: S.Server, o: S.ServerOutcome,
                           event: S.ServerEvent, draws: S.ServerDraws)
    requires ServerSetting(env, h, h1, s0, o, event, draws) && s0.pending.Keys <= h.sids
    ensures HistorySound(h1)
  {
    ServerKnownKept(env, h, h1, s0, o, event, draws);
    ServerNumbersUnique(env, h, h1, s0, o, event, draws);
    ServerCarriedKept(h, h1);
    RepliesKept(env, h, h1, s0, o, event, draws);
    OpenedCarried(env, h, h1, s0, o, event, draws);
    AcceptedKept(env, h, h1, s0, o, event, draws);
  }

  // ---------------------------------------------------------------- the server after

  lemma SessionMoved(env: S.ServerEnv, h: History, h1: History, s0: S.Server, o: S.ServerOutcome,
                     event: S.ServerEvent, draws: S.ServerDraws, sid: SessionId, b: Body)
    requires Linked(env, h, s0, o.server, event, draws) && h1.known == h.known + SentAtoms(ActionsOf(o.reply))
    requires forall f :: f in Records(ActionsOf(o.reply)) ==> SE.SentFor(s0, o.server, f, event)
    requires sid in s0.sessions && sid in o.server.sessions
    requires BodyAtom(b) in h1.known && b.Sealed? && b.key == o.server.sessions[sid].sealer.key
    ensures b.header.number < o.server.sessions[sid].sealer.next
  {
    assert SE.SessionEvolves(env, s0, o.server, sid, event, draws.conv);
    assert ServerSessionLink(h, s0.sessions[sid]);
    assert SI.SessionSound(env, o.server.sessions[sid], sid);
    if BodyAtom(b) !in h.known {
      var f := SentBody(ActionsOf(o.reply), b);
      SentKinds(env, h, s0, o.server, f, event, draws);
      assert SI.SessionSound(env, o.server.sessions[f.header.sid], f.header.sid);
    }
  }

  lemma SessionBegun(env: S.ServerEnv, h: History, h1: History, s0: S.Server, o: S.ServerOutcome,
                     event: S.ServerEvent, draws: S.ServerDraws, sid: SessionId, b: Body)
    requires Linked(env, h, s0, o.server, event, draws) && h1.known == h.known + SentAtoms(ActionsOf(o.reply)) && KnownSound(h)
    requires forall f :: f in Records(ActionsOf(o.reply)) ==> SE.SentFor(s0, o.server, f, event)
    requires sid !in s0.sessions && sid in o.server.sessions
    requires BodyAtom(b) in h1.known && b.Sealed? && b.key == o.server.sessions[sid].sealer.key
    ensures b.header.number < o.server.sessions[sid].sealer.next
  {
    assert SE.SessionEvolves(env, s0, o.server, sid, event, draws.conv);
    assert SI.SessionSound(env, o.server.sessions[sid], sid);
    if BodyAtom(b) in h.known {
      PendingUnused(h, s0, b);
      assert false;
    } else {
      var f := SentBody(ActionsOf(o.reply), b);
      SentKinds(env, h, s0, o.server, f, event, draws);
      assert SI.SessionSound(env, o.server.sessions[f.header.sid], f.header.sid);
    }
  }

  lemma AckKnown(env: S.ServerEnv, h: History, h1: History, s0: S.Server, o: S.ServerOutcome,
                 event: S.ServerEvent, draws: S.ServerDraws, sid: SessionId)
    requires Linked(env, h, s0, o.server, event, draws) && h1.known == h.known + SentAtoms(ActionsOf(o.reply))
    requires SE.BeginsReported(s0, o) && sid in o.server.sessions
    ensures o.server.sessions[sid].ack.RecordMsg? && BodyAtom(o.server.sessions[sid].ack.body) in h1.known
  {
    hide SI.SessionSound, SE.BoundBy, From;
    assert SE.SessionEvolves(env, s0, o.server, sid, event, draws.conv);
    assert SI.SessionSound(env, o.server.sessions[sid], sid);
    if sid in s0.sessions {
      assert ServerSessionLink(h, s0.sessions[sid]);
    } else {
      var a :| a in o.reply.actions && a.SendFrame? && a.frame == o.server.sessions[sid].ack;
      assert BodyAtom(a.frame.body) in Atoms(a.frame);
    }
  }

  lemma KeyAccepted(env: S.ServerEnv, h: History, h1: History, s0: S.Server, o: S.ServerOutcome,
                    event: S.ServerEvent, draws: S.ServerDraws, sid: SessionId)
    requires ServerSetting(env, h, h1, s0, o, event, draws) && sid in o.server.sessions
    ensures SI.KeyOf(o.server.sessions[sid]) in h1.accepted
  {
    assert SE.SessionEvolves(env, s0, o.server, sid, event, draws.conv);
    if sid in s0.sessions {
      assert ServerSessionLink(h, s0.sessions[sid]);
    } else {
      BeginAccepted(h, h1, s0, o, sid);
    }
  }

  lemma ServerSessionLinked(env: S.ServerEnv, h: History, h1: History, s0: S.Server, o: S.ServerOutcome,
                            event: S.ServerEvent, draws: S.ServerDraws, sid: SessionId)
    requires ServerSetting(env, h, h1, s0, o, event, draws) && sid in o.server.sessions
    ensures ServerSessionLink(h1, o.server.sessions[sid])
  {
    var s := o.server.sessions[sid];
    KeyAccepted(env, h, h1, s0, o, event, draws, sid);
    AckKnown(env, h, h1, s0, o, event, draws, sid);
    forall hd | hd in s.handles.byHandle
      ensures (SI.KeyOf(s), hd) in h1.owner && From(h1, s.handles.byHandle[hd], h1.owner[(SI.KeyOf(s), hd)])
    {
      HandlesLinked(env, h, h1, s0, o, event, draws, sid, hd);
    }
    forall b | BodyAtom(b) in h1.known && b.Sealed? && b.key == s.sealer.key
      ensures b.header.number < s.sealer.next
    {
      if sid in s0.sessions {
        SessionMoved(env, h, h1, s0, o, event, draws, sid, b);
      } else {
        SessionBegun(env, h, h1, s0, o, event, draws, sid, b);
      }
    }
  }

  lemma AcceptedNotPending(env: S.ServerEnv, h: History, h1: History, s0: S.Server, o: S.ServerOutcome,
                           event: S.ServerEvent, draws: S.ServerDraws)
    requires ServerSetting(env, h, h1, s0, o, event, draws) && SI.IdsApart(o.server)
    requires forall sid :: sid in o.server.pending ==> sid in s0.pending || sid in draws.sids
    requires forall sid :: sid in draws.sids ==> sid !in h.sids
    ensures forall key :: key in h1.accepted ==> key.sid !in o.server.pending
  {
    forall key | key in h1.accepted
      ensures key.sid !in o.server.pending
    {
      if key in h.accepted {
        assert AcceptedSound(h, key);
      } else {
        var a := AcceptedAction(o.server, ActionsOf(o.reply), key);
        assert SI.SessionSound(env, o.server.sessions[a.sid], a.sid);
      }
    }
  }

  lemma HeldOpened(h: History, h1: History, s0: S.Server, o: S.ServerOutcome, event: S.ServerEvent, draws: S.ServerDraws)
    requires h1 == AfterServer(h, s0, event, draws.conv, o)
    requires forall sid :: SI.Held(s0, sid) <= h.openedBy.Keys
    requires forall x, c :: c in SI.Held(o.server, x) ==> SE.HeldFrom(s0, o.server, c, event, draws.conv)
    ensures forall sid :: SI.Held(o.server, sid) <= h1.openedBy.Keys
  {
    forall sid, c | c in SI.Held(o.server, sid)
      ensures c in h1.openedBy
    {
      assert SE.HeldFrom(s0, o.server, c, event, draws.conv);
    }
  }

  // ---------------------------------------------------------------- the client, unmoved

  lemma ClientUnmoved(h: History, h1: History, c: C.Client)
    requires HistoryGrows(h, h1) && ClientLink(h, c) && Agreed(h, c)
    requires h1.owner == h.owner && h1.peerOf == h.peerOf && h1.nonces == h.nonces
    requires forall b :: BodyAtom(b) in h1.known && BodyAtom(b) !in h.known ==> b.Sealed? && b.key.dir.ServerToClient?
    requires c.session.Some? ==> c.session.value.sealer.key.dir.ClientToServer?
    ensures ClientLink(h1, c) && Agreed(h1, c)
  {
    forall p | p in c.byPeer && c.byPeer[p].ticket.Some?
      ensures From(h1, c.byPeer[p].ticket.value.credential.body.conversation, c.byPeer[p].id)
    {
      FromGrows(h, h1, c.byPeer[p].ticket.value.credential.body.conversation, c.byPeer[p].id);
    }
  }

  // ---------------------------------------------------------------- the logs after

  lemma UpsKept(env: S.ServerEnv, h: History, h1: History, s0: S.Server, o: S.ServerOutcome,
                event: S.ServerEvent, draws: S.ServerDraws, u: Up)
    requires ServerSetting(env, h, h1, s0, o, event, draws)
    requires event.TunnelFrame? && event.frame.RecordMsg? && u in UpsOf(ActionsOf(o.reply), event.frame.body)
    ensures UpSound(h1, u)
  {
    var sid := UpAction(ActionsOf(o.reply), event.frame.body, u);
    assert SE.DeliveredFor(s0, o.server, sid, u.conv, u.payload, event);
    UpDelivered(env, h, h1, s0, o, event, draws, u, sid);
  }

  lemma UpDelivered(env: S.ServerEnv, h: History, h1: History, s0: S.Server, o: S.ServerOutcome,
                    event: S.ServerEvent, draws: S.ServerDraws, u: Up, sid: SessionId)
    requires ServerSetting(env, h, h1, s0, o, event, draws)
    requires SE.DeliveredFor(s0, o.server, sid, u.conv, u.payload, event) && u.body == event.frame.body
    ensures UpSound(h1, u)
  {
    assert SI.SessionSound(env, s0.sessions[sid], sid);
    assert SE.SessionEvolves(env, s0, o.server, sid, event, draws.conv);
    ReadsOwned(env, h, s0.sessions[sid], sid, event);
    HandlesLinked(env, h, h1, s0, o, event, draws, sid, event.frame.header.handle.value);
    assert CarriedSound(h, u.body);
    assert CarriedSound(h, h1.openedBy[u.conv]);
  }

  lemma ServerLogs(env: S.ServerEnv, h: History, h1: History, s0: S.Server, o: S.ServerOutcome,
                   event: S.ServerEvent, draws: S.ServerDraws)
    requires ServerSetting(env, h, h1, s0, o, event, draws) && LogsSound(h)
    ensures LogsSound(h1)
  {
    forall u | u in h1.ups && u !in h.ups
      ensures UpSound(h1, u)
    {
      UpsKept(env, h, h1, s0, o, event, draws, u);
    }
    LogsGrow(h, h1);
  }
}
