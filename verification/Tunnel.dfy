/** Client and server joined by a network that drops, duplicates, reorders and
    recombines: it may hand over any frame whose tags and sealed bodies either
    verify nowhere or have been sent before. */
module Tunnel {
  import opened Base
  import opened Protocol
  import opened Config
  import opened Messages
  import opened Sessions
  import C = ClientSpec
  import CI = ClientInvariants
  import CS = ClientSteps
  import CC = ClientConservation
  import S = ServerSpec
  import SI = ServerInvariants
  import SE = ServerEffects

  // ---------------------------------------------------------------- the network

  datatype Atom = MacAtom(mac: Mac) | BodyAtom(body: Body)

  /** The authenticated parts of a frame. */
  function Atoms(f: Frame): set<Atom> {
    match f
    case HelloMsg(h) =>
      (if h.cookie.Some? then {MacAtom(h.cookie.value.tag)} else {})
      + (if h.resumption.Some? then {MacAtom(h.resumption.value.tag)} else {})
    case RetryMsg(r) => {MacAtom(r.tag), MacAtom(r.body.cookie.tag)}
    case ServerHelloMsg(_, sh) => {MacAtom(sh.tag)}
    case FinishMsg(_, fin) => {MacAtom(fin.tag)}
    case RecordMsg(_, body) => {BodyAtom(body)}
    case Undecodable => {}
  }

  predicate ForgedAtom(a: Atom) {
    match a
    case MacAtom(m) => m.ForgedMac?
    case BodyAtom(b) => b.ForgedBody?
  }

  ghost predicate Deliverable(f: Frame, known: set<Atom>) {
    forall a :: a in Atoms(f) ==> ForgedAtom(a) || a in known
  }

  function SentAtoms(actions: seq<Action>): set<Atom> {
    set a, x | a in actions && a.SendFrame? && x in Atoms(a.frame) :: x
  }

  // ---------------------------------------------------------------- history

  /** Whose datagram a client record carries. */
  datatype Carrier = Carrier(conv: ConvId, datagram: C.Datagram)

  /** For which server conversation a server record was sealed. */
  datatype ReplyOf = ReplyOf(conv: ConvId, payload: seq<byte>)

  /** What an endpoint reports about a session. */
  datatype Terms = Terms(sid: SessionId, suite: CipherSuite, resumed: bool)

  /** A server hello that the server has made for a client hello. */
  datatype Offer = Offer(sid: SessionId, hello: ClientHello, serverHello: ServerHello)

  datatype Up = Up(conv: ConvId, payload: seq<byte>, body: Body)
  datatype Down = Down(localPeer: LocalPeer, payload: seq<byte>, body: Body)
  datatype Reported = Reported(key: SessionKey, terms: Terms)

  /** What has happened so far. `carried`, `replyFor`, `openedBy`, `accepted` and
      the logs record events; `owner` and `peerOf` remember every entry the
      client's tables ever held, `begun` the sessions the client has derived and
      `offered` the handshakes the server has answered. `line` lists the datagrams the client accepted in
      order of arrival, without those that found its queue full, and `fates` what
      became of them in order of decision. */
  datatype History = History(
    known: set<Atom>,
    nonces: set<nat>,
    sids: set<SessionId>,
    owner: map<(SessionKey, Handle), ConvId>,
    peerOf: map<ConvId, LocalPeer>,
    carried: map<Body, Carrier>,
    openedBy: map<ConvId, Body>,
    replyFor: map<Body, ReplyOf>,
    accepted: map<SessionKey, Terms>,
    begun: set<SessionKey>,
    offered: set<Offer>,
    ups: seq<Up>,
    downs: seq<Down>,
    reports: seq<Reported>,
    serials: set<nat>,
    line: seq<C.Datagram>,
    fates: seq<C.Fate>)

  function NewHistory(): History {
    History({}, {}, {}, map[], map[], map[], map[], map[], map[], {}, {}, [], [], [], {}, [], [])
  }

  function ActionsOf(r: Reply): seq<Action> {
    if r.Ok? then r.actions else []
  }

  // ------------------------------------------------------- after a client event

  function CarriedBy(fates: seq<C.Fate>): map<Body, Carrier> {
    if fates == [] then map[]
    else
      var rest := CarriedBy(fates[1..]);
      var f := fates[0];
      if f.Carried? && f.frame.RecordMsg? then rest[f.frame.body := Carrier(f.conv, f.datagram)]
      else rest
  }

  function OwnersOf(c: C.Client): map<(SessionKey, Handle), ConvId> {
    if c.session.None? then map[]
    else
      var s := c.session.value;
      map h | h in s.handles.byHandle :: (CI.KeyOf(s), h) := s.handles.byHandle[h]
  }

  function DownsOf(actions: seq<Action>, body: Body): seq<Down> {
    if actions == [] then []
    else (if actions[0].DeliverToClient? then [Down(actions[0].localPeer, actions[0].payload, body)] else [])
         + DownsOf(actions[1..], body)
  }

  function ReportsOf(actions: seq<Action>, key: SessionKey): seq<Reported> {
    if actions == [] then []
    else (if actions[0].SessionEstablished?
          then [Reported(key, Terms(actions[0].sid, actions[0].suite, actions[0].resumed))] else [])
         + ReportsOf(actions[1..], key)
  }

  /** The event's datagram found the reconnect queue full. */
  predicate TurnedAway(event: C.ClientEvent, o: C.ClientOutcome) {
    event.ClientDatagram? && o.fates == [C.Lost(event.datagram, ReconnectQueueFull)]
  }

  function AfterClient(h: History, event: C.ClientEvent, o: C.ClientOutcome): History {
    var actions := ActionsOf(o.reply);
    h.(known := h.known + SentAtoms(actions),
       nonces := h.nonces + (if o.client.handshake.Some? then {o.client.handshake.value.hello.clientNonce} else {}),
       owner := h.owner + OwnersOf(o.client),
       peerOf := h.peerOf + o.client.byId,
       carried := h.carried + CarriedBy(o.fates),
       begun := h.begun + (if o.client.session.Some? then {CI.KeyOf(o.client.session.value)} else {}),
       downs := h.downs + (if event.TunnelFrame? && event.frame.RecordMsg? then DownsOf(actions, event.frame.body) else []),
       reports := h.reports + (if o.client.session.Some? then ReportsOf(actions, CI.KeyOf(o.client.session.value)) else []),
       serials := h.serials + (if event.ClientDatagram? then {event.datagram.serial} else {}),
       line := if TurnedAway(event, o) then h.line else h.line + CC.Arrived(event, o.reply),
       fates := if TurnedAway(event, o) then h.fates else h.fates + o.fates)
  }

  // ------------------------------------------------------- after a server event

  function RepliesOf(frames: seq<Frame>, reply: ReplyOf): map<Body, ReplyOf> {
    map f | f in frames && f.RecordMsg? && f.header.ftype.Data? :: f.body := reply
  }

  function UpsOf(actions: seq<Action>, body: Body): seq<Up> {
    if actions == [] then []
    else (if actions[0].DeliverToUpstream? then [Up(actions[0].conv, actions[0].payload, body)] else [])
         + UpsOf(actions[1..], body)
  }

  /** The handshakes the server has just accepted, with the terms it reports. */
  function AcceptedBy(s1: S.Server, actions: seq<Action>): map<SessionKey, Terms> {
    if actions == [] then map[]
    else
      var rest := AcceptedBy(s1, actions[1..]);
      var a := actions[0];
      if a.SessionEstablished? && a.sid in s1.sessions
      then rest[SI.KeyOf(s1.sessions[a.sid]) := Terms(a.sid, a.suite, a.resumed)] else rest
  }

  function OffersOf(pending: map<SessionId, S.Pending>): set<Offer> {
    set sid | sid in pending :: Offer(sid, pending[sid].hello, pending[sid].serverHello)
  }

  function AfterServer(h: History, s0: S.Server, event: S.ServerEvent, draw: Option<ConvId>, o: S.ServerOutcome): History {
    var actions := ActionsOf(o.reply);
    h.(known := h.known + SentAtoms(actions),
       sids := h.sids + o.server.pending.Keys,
       offered := h.offered + OffersOf(o.server.pending),
       openedBy := if SE.Opens(s0, o.server, event, draw) then h.openedBy[draw.value := event.frame.body] else h.openedBy,
       replyFor := if event.ServerDatagram?
                   then h.replyFor + RepliesOf(Records(actions), ReplyOf(event.conv, event.payload)) else h.replyFor,
       accepted := h.accepted + AcceptedBy(o.server, actions),
       ups := h.ups + (if event.TunnelFrame? && event.frame.RecordMsg? then UpsOf(actions, event.frame.body) else []))
  }

  // ---------------------------------------------------------------- the system

  datatype Env = Env(client: C.ClientEnv, server: S.ServerEnv)

  datatype System = System(client: C.Client, server: S.Server, serverUp: bool, history: History)

  function NewSystem(): System {
    System(C.NewClient(), S.NewServer(), true, NewHistory())
  }

  datatype Step =
    | ClientStep(cevent: C.ClientEvent, cnow: Time, cdraws: C.ClientDraws)
    | ServerStep(sevent: S.ServerEvent, snow: Time, sdraws: S.ServerDraws)

  /** The same key on both sides, valid limits. */
  ghost predicate ValidEnv(env: Env) {
    && CS.ClientLimits(env.client)
    && ValidConfig(env.server.cfg)
    && env.server.psk == env.client.psk
  }

  /** What the platform and the network may do next. Random values and the serial
      numbers that tell datagrams apart never repeat; a hash table is visited
      completely, each entry once; a crashed server does nothing more. */
  ghost predicate Enabled(env: Env, sys: System, step: Step) {
    match step
    case ClientStep(event, _, draws) =>
      && (event.TunnelFrame? ==> Deliverable(event.frame, sys.history.known))
      && CI.FreshDraws(draws.convs, sys.history.peerOf.Keys)
      && Enumerates(draws.order, sys.client.byPeer.Keys)
      && (draws.hello.Some? ==> draws.hello.value.clientNonce !in sys.history.nonces)
      && (event.ClientDatagram? ==> event.datagram.serial !in sys.history.serials)
    case ServerStep(event, _, draws) =>
      && sys.serverUp
      && (event.TunnelFrame? ==> Deliverable(event.frame, sys.history.known))
      && (draws.conv.Some? ==> draws.conv.value !in sys.history.openedBy)
      && (forall sid :: sid in draws.sids ==> sid !in sys.history.sids)
      && Enumerates(draws.pendingOrder, sys.server.pending.Keys)
      && S.RefreshesAll(sys.server, event, draws)
      && (event.TimeAdvanced? ==> S.VisitsAll(env.server, sys.server, event.at, draws))
  }

  function Next(env: Env, sys: System, step: Step): System
    requires env.client.cfg.sessionTimeout > 0 && env.server.cfg.rateRefillInterval > 0
  {
    match step
    case ClientStep(event, now, draws) =>
      var o := C.ClientStep(env.client, sys.client, event, now, draws);
      sys.(client := o.client, history := AfterClient(sys.history, event, o))
    case ServerStep(event, now, draws) =>
      var o := S.ServerStep(env.server, sys.server, event, now, draws);
      sys.(server := o.server, serverUp := !o.reply.Panic?,
           history := AfterServer(sys.history, sys.server, event, draws.conv, o))
  }

  /** A run: every step enabled where it is taken. */
  ghost predicate ValidRun(env: Env, steps: seq<Step>)
    requires ValidEnv(env)
  {
    steps != [] ==>
      && ValidRun(env, steps[..|steps| - 1])
      && Enabled(env, Run(env, steps[..|steps| - 1]), steps[|steps| - 1])
  }

  /** The state after a run. */
  function Run(env: Env, steps: seq<Step>): System
    requires env.client.cfg.sessionTimeout > 0 && env.server.cfg.rateRefillInterval > 0
  {
    if steps == [] then NewSystem() else Next(env, Run(env, steps[..|steps| - 1]), steps[|steps| - 1])
  }
}
