/** Ordered delivery over one FakeTCP connection. */
module FakeTcpTheorems {
  import opened Base
  import opened FakeTcpSpec
  import opened FakeTcpOrder

  /** A packet of one end: no reset, the initial number on a SYN only, and data at
      its place in the line. */
  ghost predicate Clean(p: Packet, source: Addr, destination: Addr, isn: nat, numbered: seq<Frame>) {
    && p.source == source && p.destination == destination && Rst !in p.flags
    && (Syn in p.flags ==> p.sequence == isn && p.payload == [])
    && (p.payload != [] ==> Placed(p, isn, numbered))
  }

  /** The frames that have sequence numbers. */
  function Numbered(path: Path, line: seq<Frame>): seq<Frame> {
    if path.phase.Established? then line else []
  }

  ghost predicate SenderOk(path: Path, isn: nat, line: seq<Frame>) {
    && AllSolid(line)
    && (if path.phase.Established? then path.pending == [] && path.next == Wrap(isn + 1 + Total(line))
        else path.next == Wrap(isn + 1) && Solid(path.pending) == line)
  }

  ghost predicate ReceiverOk(expected: nat, isn: nat, numbered: seq<Frame>, got: seq<Frame>) {
    got <= numbered && expected == Wrap(isn + 1 + Total(got))
  }

  ghost predicate AllClean(h: Host, sent: set<Packet>, destination: Addr, isn: nat, numbered: seq<Frame>) {
    && (forall p :: p in sent ==> Clean(p, h.local, destination, isn, numbered))
    && (forall p :: p in h.outbox ==> Clean(p, h.local, destination, isn, numbered))
  }

  /** A host with its one path. */
  ghost predicate OnePath(h: Host, peer: Addr, id: PeerId) {
    && h.peers == map[peer := id] && id in h.paths && h.paths == map[id := h.paths[id]]
    && h.paths[id].peer == peer
  }

  // ---------------------------------------------------------------- queued frames

  lemma OffsetStep(line: seq<Frame>, k: nat)
    requires k < |line|
    ensures Offset(line, k + 1) == Offset(line, k) + |line[k]|
  {
    assert line[..k + 1][..k] == line[..k];
  }

  /** The rest of the line, from place `k`, is what these frames leave. */
  ghost predicate Remaining(line: seq<Frame>, k: nat, frames: seq<Frame>) {
    k <= |line| && line[k..] == Solid(frames)
  }

  lemma RemainingStep(line: seq<Frame>, k: nat, frames: seq<Frame>)
    requires Remaining(line, k, frames) && frames != []
    ensures frames[0] == [] ==> Remaining(line, k, frames[1..])
    ensures frames[0] != [] ==> k < |line| && line[k] == frames[0] && Remaining(line, k + 1, frames[1..])
  {
    if frames[0] != [] {
      assert line[k..][0] == frames[0];
      assert line[k + 1..] == line[k..][1..];
    }
  }

  /** The place reached after one more frame, and its number. */
  function Reached(k: nat, f: Frame): nat {
    if f == [] then k else k + 1
  }

  lemma NumberStep(isn: nat, line: seq<Frame>, k: nat, frames: seq<Frame>)
    requires Remaining(line, k, frames) && frames != []
    ensures Remaining(line, Reached(k, frames[0]), frames[1..])
    ensures Wrap(Wrap(isn + 1 + Offset(line, k)) + |frames[0]|) == Wrap(isn + 1 + Offset(line, Reached(k, frames[0])))
  {
    RemainingStep(line, k, frames);
    WrapAdd(isn + 1 + Offset(line, k), |frames[0]|);
    if frames[0] != [] {
      OffsetStep(line, k);
    }
  }

  lemma {:induction false} AdvancedTo(next: nat, frames: seq<Frame>, isn: nat, line: seq<Frame>, k: nat)
    requires Remaining(line, k, frames) && next == Wrap(isn + 1 + Offset(line, k))
    ensures Advanced(next, frames) == Wrap(isn + 1 + Total(line))
    decreases |frames|
  {
    if frames == [] {
      assert line[..k] == line;
    } else {
      NumberStep(isn, line, k, frames);
      AdvancedTo(Wrap(next + |frames[0]|), frames[1..], isn, line, Reached(k, frames[0]));
    }
  }

  lemma {:induction false} QueuedClean(path: Path, local: Addr, frames: seq<Frame>, isn: nat, line: seq<Frame>, k: nat)
    requires Remaining(line, k, frames) && path.next == Wrap(isn + 1 + Offset(line, k))
    ensures forall p :: p in Queued(path, local, frames) ==> Clean(p, local, path.peer, isn, line)
    decreases |frames|
  {
    if frames != [] {
      var first := Packet(local, path.peer, path.next, path.expected, {Ack, Psh}, frames[0]);
      NumberStep(isn, line, k, frames);
      RemainingStep(line, k, frames);
      QueuedClean(path.(next := Wrap(path.next + |frames[0]|)), local, frames[1..], isn, line, Reached(k, frames[0]));
      assert Clean(first, local, path.peer, isn, line);
    }
  }

  // ---------------------------------------------------------------- one end

  /** One end of the connection: its path, its line and all it has sent. */
  ghost predicate Side(h: Host, sent: set<Packet>, peer: Addr, id: PeerId, isn: nat, line: seq<Frame>) {
    && OnePath(h, peer, id)
    && SenderOk(h.paths[id], isn, line)
    && AllClean(h, sent, peer, isn, Numbered(h.paths[id], line))
  }

  lemma CleanExtends(p: Packet, source: Addr, destination: Addr, isn: nat, line: seq<Frame>, f: Frame)
    requires Clean(p, source, destination, isn, line)
    ensures Clean(p, source, destination, isn, line + NonEmpty(f))
  {
    if f == [] {
      assert line + NonEmpty(f) == line;
    } else if p.payload != [] {
      PlacedExtends(p, isn, line, f);
    }
  }

  lemma LastPlaced(p: Packet, isn: nat, line: seq<Frame>)
    requires p.payload != [] && p.sequence == Wrap(isn + 1 + Total(line))
    ensures Placed(p, isn, line + [p.payload])
  {
    var all := line + [p.payload];
    assert all[..|line|] == line && all[|line|] == p.payload;
  }

  /** After `send`, whatever comes of it, the end is as it should be. */
  lemma SendSide(h: Host, sent: set<Packet>, peer: Addr, id: PeerId, isn: nat, line: seq<Frame>, frame: Frame)
    requires Side(h, sent, peer, id, isn, line)
    ensures var r := Send(h, id, frame);
            && Side(r.host, sent + Wire(r.wire), peer, id, isn, if r.placed then line + NonEmpty(frame) else line)
            && r.host.paths[id].phase == h.paths[id].phase && r.host.paths[id].expected == h.paths[id].expected
            && r.host.local == h.local && r.host.role == h.role
  {
    var r := Send(h, id, frame);
    var path := h.paths[id];
    if r.placed {
      if path.phase.Established? {
        SendNumbered(h, sent, peer, id, isn, line, frame);
      } else {
        SolidAppend(path.pending, frame);
        NonEmptySolid(line, frame);
        assert r.host.paths == map[id := r.host.paths[id]];
      }
    }
  }

  lemma NonEmptySolid(line: seq<Frame>, f: Frame)
    requires AllSolid(line)
    ensures AllSolid(line + NonEmpty(f))
  {
  }

  lemma NumberAfter(isn: nat, line: seq<Frame>, f: Frame)
    ensures Wrap(Wrap(isn + 1 + Total(line)) + |f|) == Wrap(isn + 1 + Total(line + NonEmpty(f)))
  {
    WrapAdd(isn + 1 + Total(line), |f|);
    if f != [] {
      TotalExtends(line, f);
    } else {
      assert line + NonEmpty(f) == line;
    }
  }

  lemma RawClean(raw: Packet, peer: Addr, isn: nat, line: seq<Frame>)
    requires raw.destination == peer && raw.flags == {Ack, Psh} && raw.sequence == Wrap(isn + 1 + Total(line))
    ensures Clean(raw, raw.source, peer, isn, line + NonEmpty(raw.payload))
  {
    if raw.payload != [] {
      LastPlaced(raw, isn, line);
    }
  }

  lemma MoreClean(local: Addr, past: set<Packet>, more: set<Packet>, raw: Packet, peer: Addr, isn: nat, line: seq<Frame>, frame: Frame)
    requires forall p :: p in past ==> Clean(p, local, peer, isn, line)
    requires forall p :: p in more ==> p in past || p == raw
    requires Clean(raw, local, peer, isn, line + NonEmpty(frame))
    ensures forall p :: p in more ==> Clean(p, local, peer, isn, line + NonEmpty(frame))
  {
    forall p | p in more
      ensures Clean(p, local, peer, isn, line + NonEmpty(frame))
    {
      if p in past {
        CleanExtends(p, local, peer, isn, line, frame);
      }
    }
  }

  lemma SenderAfter(path: Path, isn: nat, line: seq<Frame>, frame: Frame)
    requires SenderOk(path, isn, line) && path.phase.Established?
    ensures SenderOk(path.(next := Wrap(path.next + |frame|)), isn, line + NonEmpty(frame))
  {
    hide AllSolid, Total, Wrap, Solid;
    NonEmptySolid(line, frame);
    NumberAfter(isn, line, frame);
  }

  lemma SendNumbered(h: Host, sent: set<Packet>, peer: Addr, id: PeerId, isn: nat, line: seq<Frame>, frame: Frame)
    requires Side(h, sent, peer, id, isn, line) && h.paths[id].phase.Established? && Send(h, id, frame).placed
    ensures var r := Send(h, id, frame);
            Side(r.host, sent + Wire(r.wire), peer, id, isn, line + NonEmpty(frame))
  {
    hide Clean, Total, Flushed, Solid, AllSolid;
    var r := Send(h, id, frame);
    var path := h.paths[id];
    var raw := Packet(h.local, path.peer, path.next, path.expected, {Ack, Psh}, frame);
    RawClean(raw, peer, isn, line);
    SenderAfter(path, isn, line, frame);
    MoreClean(h.local, sent + Wire(h.outbox), sent + Wire(r.wire), raw, peer, isn, line, frame);
    assert r.host.paths == map[id := path.(next := Wrap(path.next + |frame|))];
    assert r.host.outbox == [];
  }

  lemma PollSide(h: Host, sent: set<Packet>, peer: Addr, id: PeerId, isn: nat, line: seq<Frame>)
    requires Side(h, sent, peer, id, isn, line)
    ensures var r := Poll(h);
            && Side(r.host, sent + Wire(r.wire), peer, id, isn, line)
            && r.host.paths == h.paths && r.host.local == h.local && r.host.role == h.role
  {
  }

  /** The handshake completes: the frames that waited get the first numbers. */
  lemma EstablishSide(h: Host, sent: set<Packet>, peer: Addr, id: PeerId, isn: nat, line: seq<Frame>,
                      up: Path, acks: seq<Packet>)
    requires Side(h, sent, peer, id, isn, line) && !h.paths[id].phase.Established?
    requires up == h.paths[id].(phase := Established, expected := up.expected)
    requires forall p :: p in acks ==> Clean(p, h.local, peer, isn, line)
    ensures Side(h.(paths := h.paths[id := Drained(up)], outbox := h.outbox + acks + Queued(up, h.local, up.pending)),
                 sent, peer, id, isn, line)
  {
    hide Queued, Advanced;
    assert line[0..] == line && line[..0] == [];
    AdvancedTo(up.next, up.pending, isn, line, 0);
    QueuedClean(up, h.local, up.pending, isn, line, 0);
    var h1 := h.(paths := h.paths[id := Drained(up)], outbox := h.outbox + acks + Queued(up, h.local, up.pending));
    assert h1.paths == map[id := Drained(up)];
    forall p | p in sent || p in h.outbox
      ensures Clean(p, h.local, peer, isn, line)
    {
      assert Clean(p, h.local, peer, isn, []);
    }
  }

  // ---------------------------------------------------------------- both ends

  ghost predicate ClientOk(e: Setup, n: Net) {
    && Side(n.client, n.fromClient, e.server, e.serverId, n.clientIsn, n.clientLine)
    && n.client.role.ClientRole? && n.client.local == e.client
    && !n.client.paths[e.serverId].phase.ServerSynAckSent?
  }

  /** The server has not seen a SYN yet. */
  ghost predicate Unmet(e: Setup, n: Net) {
    && n.server.paths == map[] && n.server.peers == map[] && n.server.outbox == []
    && n.fromServer == {} && n.serverLine == [] && n.atServer == [] && n.atClient == []
    && e.serverId in n.client.paths && n.client.paths[e.serverId].phase.ClientSynSent?
  }

  ghost predicate Met(e: Setup, n: Net) {
    var id := PeerIdFor(e.client);
    && Side(n.server, n.fromServer, e.client, id, n.serverIsn, n.serverLine)
    && !n.server.paths[id].phase.ClientSynSent?
    && e.serverId in n.client.paths
    && var cp := n.client.paths[e.serverId]; var sp := n.server.paths[id];
       && ReceiverOk(sp.expected, n.clientIsn, Numbered(cp, n.clientLine), n.atServer)
       && (if cp.phase.Established? then ReceiverOk(cp.expected, n.serverIsn, Numbered(sp, n.serverLine), n.atClient)
           else n.atClient == [])
  }

  ghost predicate NetInv(e: Setup, n: Net) {
    && ClientOk(e, n)
    && n.server.role.ServerRole? && n.server.local == e.server
    && (Unmet(e, n) || Met(e, n))
  }

  lemma BeginInv(e: Setup, isn: nat)
    ensures NetInv(e, Begin(e, isn))
  {
    var n := Begin(e, isn);
    assert Total([]) == 0;
    assert n.client.paths == map[e.serverId := n.client.paths[e.serverId]];
  }

  lemma ClientSendsInv(e: Setup, n: Net, frame: Frame)
    requires NetInv(e, n)
    ensures NetInv(e, Next(e, n, ClientSends(frame)))
  {
    SendSide(n.client, n.fromClient, e.server, e.serverId, n.clientIsn, n.clientLine, frame);
    assert n.clientLine <= n.clientLine + NonEmpty(frame);
  }

  lemma ServerSendsInv(e: Setup, n: Net, frame: Frame)
    requires NetInv(e, n)
    ensures NetInv(e, Next(e, n, ServerSends(frame)))
  {
    if Met(e, n) {
      SendSide(n.server, n.fromServer, e.client, PeerIdFor(e.client), n.serverIsn, n.serverLine, frame);
      assert n.serverLine <= n.serverLine + NonEmpty(frame);
    }
  }

  lemma PollsInv(e: Setup, n: Net, s: Step)
    requires NetInv(e, n) && (s.ClientPolls? || s.ServerPolls?)
    ensures NetInv(e, Next(e, n, s))
  {
    PollSide(n.client, n.fromClient, e.server, e.serverId, n.clientIsn, n.clientLine);
    if Met(e, n) {
      PollSide(n.server, n.fromServer, e.client, PeerIdFor(e.client), n.serverIsn, n.serverLine);
    }
  }

  // ---------------------------------------------------------------- arrivals

  /** A frame in sequence, at either end. */
  lemma TakenSide(h: Host, sent: set<Packet>, peer: Addr, id: PeerId, isn: nat, line: seq<Frame>, p: Packet)
    requires Side(h, sent, peer, id, isn, line) && h.paths[id].phase.Established? && p.source == peer
    ensures Side(Taken(h, id, h.paths[id], p), sent, peer, id, isn, line)
  {
    var h1 := Taken(h, id, h.paths[id], p);
    assert h1.paths == map[id := h1.paths[id]];
  }

  lemma TakenInOrder(p: Packet, source: Addr, destination: Addr, isn: nat, numbered: seq<Frame>, expected: nat, got: seq<Frame>)
    requires Clean(p, source, destination, isn, numbered) && p.payload != [] && p.sequence == expected
    requires ReceiverOk(expected, isn, numbered, got) && AllSolid(numbered) && Total(numbered) < WORD
    ensures ReceiverOk(Wrap(expected + |p.payload|), isn, numbered, got + [p.payload])
  {
    assert numbered[..|got|] == got;
    NextInLine(p, isn, numbered, |got|);
    TotalExtends(got, p.payload);
    WrapAdd(isn + 1 + Total(got), |p.payload|);
    assert numbered[..|got| + 1] == got + [p.payload];
  }

  ghost predicate Short(n: Net) {
    Total(n.clientLine) < WORD && Total(n.serverLine) < WORD
  }

  lemma NumberedShort(path: Path, isn: nat, line: seq<Frame>)
    requires SenderOk(path, isn, line) && Total(line) < WORD
    ensures AllSolid(Numbered(path, line)) && Total(Numbered(path, line)) < WORD
  {
  }

  lemma WelcomeInv(e: Setup, n: Net, p: Packet, isn: Option<nat>)
    requires NetInv(e, n) && Unmet(e, n) && p in n.fromClient
    ensures NetInv(e, Next(e, n, ToServer(p, isn)))
  {
    var h := HandleIncoming(n.server, p, isn);
    assert Clean(p, e.client, e.server, n.clientIsn, []);
    if h != n.server {
      var id := PeerIdFor(e.client);
      assert h.paths == map[id := h.paths[id]];
      assert Total([]) == 0;
    }
  }

  lemma AcceptedInv(e: Setup, n: Net, p: Packet)
    requires NetInv(e, n) && Met(e, n)
    requires n.server.paths[PeerIdFor(e.client)].phase.ServerSynAckSent?
    ensures var id := PeerIdFor(e.client);
            NetInv(e, n.(server := Accepted(n.server, id, n.server.paths[id])))
  {
    var id := PeerIdFor(e.client);
    var up := n.server.paths[id].(phase := Established);
    EstablishSide(n.server, n.fromServer, e.client, id, n.serverIsn, n.serverLine, up, []);
    assert n.server.outbox + [] == n.server.outbox;
  }

  lemma ServerTakesInv(e: Setup, n: Net, p: Packet)
    requires NetInv(e, n) && Met(e, n) && Short(n) && p in n.fromClient && p.payload != []
    requires var sp := n.server.paths[PeerIdFor(e.client)]; sp.phase.Established? && p.sequence == sp.expected
    ensures var id := PeerIdFor(e.client);
            NetInv(e, n.(server := Taken(n.server, id, n.server.paths[id], p), atServer := n.atServer + [p.payload]))
  {
    var id := PeerIdFor(e.client);
    var cp, sp := n.client.paths[e.serverId], n.server.paths[id];
    assert Clean(p, e.client, e.server, n.clientIsn, Numbered(cp, n.clientLine));
    TakenSide(n.server, n.fromServer, e.client, id, n.serverIsn, n.serverLine, p);
    NumberedShort(cp, n.clientIsn, n.clientLine);
    TakenInOrder(p, e.client, e.server, n.clientIsn, Numbered(cp, n.clientLine), sp.expected, n.atServer);
  }

  lemma ToServerInv(e: Setup, n: Net, p: Packet, isn: Option<nat>)
    requires NetInv(e, n) && Short(n) && p in n.fromClient
    ensures NetInv(e, Next(e, n, ToServer(p, isn)))
  {
    if Unmet(e, n) {
      WelcomeInv(e, n, p, isn);
    } else {
      var id := PeerIdFor(e.client);
      var h := HandleIncoming(n.server, p, isn);
      var sp := n.server.paths[id];
      assert Clean(p, e.client, e.server, n.clientIsn, Numbered(n.client.paths[e.serverId], n.clientLine));
      if h == n.server {
        assert Gained(n.server, h) == [] && Next(e, n, ToServer(p, isn)) == n by {
          assert n.atServer + [] == n.atServer;
        }
      } else if sp.phase.ServerSynAckSent? {
        AcceptedInv(e, n, p);
        assert n.atServer + [] == n.atServer;
      } else {
        ServerTakesInv(e, n, p);
      }
    }
  }

  lemma ConnectedInv(e: Setup, n: Net, p: Packet)
    requires NetInv(e, n) && Met(e, n) && p in n.fromServer && Syn in p.flags
    requires n.client.paths[e.serverId].phase.ClientSynSent?
    ensures NetInv(e, n.(client := Connected(n.client, e.serverId, n.client.paths[e.serverId], p)))
  {
    var id := PeerIdFor(e.client);
    var path := n.client.paths[e.serverId];
    var up := path.(expected := Wrap(p.sequence + 1), phase := Established);
    var ack := Packet(e.client, p.source, up.next, up.expected, {Ack}, []);
    assert Clean(p, e.server, e.client, n.serverIsn, Numbered(n.server.paths[id], n.serverLine));
    EstablishSide(n.client, n.fromClient, e.server, e.serverId, n.clientIsn, n.clientLine, up, [ack]);
    assert Total([]) == 0;
  }

  lemma ClientTakesInv(e: Setup, n: Net, p: Packet)
    requires NetInv(e, n) && Met(e, n) && Short(n) && p in n.fromServer && p.payload != []
    requires var cp := n.client.paths[e.serverId]; cp.phase.Established? && p.sequence == cp.expected
    ensures NetInv(e, n.(client := Taken(n.client, e.serverId, n.client.paths[e.serverId], p), atClient := n.atClient + [p.payload]))
  {
    var id := PeerIdFor(e.client);
    var cp, sp := n.client.paths[e.serverId], n.server.paths[id];
    assert Clean(p, e.server, e.client, n.serverIsn, Numbered(sp, n.serverLine));
    TakenSide(n.client, n.fromClient, e.server, e.serverId, n.clientIsn, n.clientLine, p);
    NumberedShort(sp, n.serverIsn, n.serverLine);
    TakenInOrder(p, e.server, e.client, n.serverIsn, Numbered(sp, n.serverLine), cp.expected, n.atClient);
  }

  lemma ToClientInv(e: Setup, n: Net, p: Packet)
    requires NetInv(e, n) && Short(n) && p in n.fromServer
    ensures NetInv(e, Next(e, n, ToClient(p)))
  {
    assert Met(e, n);
    var h := HandleIncoming(n.client, p, None);
    var cp := n.client.paths[e.serverId];
    assert Clean(p, e.server, e.client, n.serverIsn, Numbered(n.server.paths[PeerIdFor(e.client)], n.serverLine));
    if h == n.client {
      assert Next(e, n, ToClient(p)) == n by {
        assert n.atClient + [] == n.atClient;
      }
    } else if cp.phase.ClientSynSent? {
      ConnectedInv(e, n, p);
      assert n.atClient + [] == n.atClient;
    } else {
      ClientTakesInv(e, n, p);
    }
  }

  // ---------------------------------------------------------------- whole runs

  lemma LinesGrow(e: Setup, n: Net, s: Step)
    requires Short(Next(e, n, s))
    ensures Short(n)
  {
    match s
    case ClientSends(f) =>
      if f != [] {
        TotalExtends(n.clientLine, f);
      } else {
        assert n.clientLine + NonEmpty(f) == n.clientLine;
      }
    case ServerSends(f) =>
      if f != [] {
        TotalExtends(n.serverLine, f);
      } else {
        assert n.serverLine + NonEmpty(f) == n.serverLine;
      }
    case _ =>
  }

  lemma StepInv(e: Setup, n: Net, s: Step)
    requires NetInv(e, n) && Short(n) && Enabled(n, s)
    ensures NetInv(e, Next(e, n, s))
  {
    match s
    case ClientSends(f) => ClientSendsInv(e, n, f);
    case ServerSends(f) => ServerSendsInv(e, n, f);
    case ClientPolls => PollsInv(e, n, s);
    case ServerPolls => PollsInv(e, n, s);
    case ToServer(p, isn) => ToServerInv(e, n, p, isn);
    case ToClient(p) => ToClientInv(e, n, p);
  }

  lemma {:induction false} RunInv(e: Setup, isn: nat, steps: seq<Step>)
    requires ValidRun(e, isn, steps) && Short(Run(e, isn, steps))
    ensures NetInv(e, Run(e, isn, steps))
    decreases |steps|
  {
    if steps == [] {
      BeginInv(e, isn);
    } else {
      var before := steps[..|steps| - 1];
      LinesGrow(e, Run(e, isn, before), steps[|steps| - 1]);
      RunInv(e, isn, before);
      StepInv(e, Run(e, isn, before), steps[|steps| - 1]);
    }
  }

  lemma PrefixSolid(got: seq<Frame>, line: seq<Frame>)
    requires got <= line && AllSolid(line)
    ensures AllSolid(got)
  {
    forall f | f in got
      ensures f != []
    {
      assert f in line;
    }
  }

  lemma GotLines(e: Setup, n: Net)
    requires NetInv(e, n)
    ensures n.atServer <= n.clientLine && n.atClient <= n.serverLine && AllSolid(n.clientLine) && AllSolid(n.serverLine)
  {
    hide Clean, Wrap, Total;
  }

  /** Ordered delivery. However the network loses, repeats and reorders packets,
      while fewer than 2^32 bytes have been sent each way, what came out at either
      end is a prefix of the non-empty frames that went in at the other. An empty
      frame never comes out. */
  lemma OrderedDelivery(e: Setup, isn: nat, steps: seq<Step>)
    requires ValidRun(e, isn, steps) && Short(Run(e, isn, steps))
    ensures var n := Run(e, isn, steps);
            && n.atServer <= n.clientLine && n.atClient <= n.serverLine
            && AllSolid(n.atServer) && AllSolid(n.atClient)
  {
    hide AllSolid, NetInv, Run, Short;
    var n := Run(e, isn, steps);
    RunInv(e, isn, steps);
    GotLines(e, n);
    PrefixSolid(n.atServer, n.clientLine);
    PrefixSolid(n.atClient, n.serverLine);
  }
}
