/** Frames that never go on the wire. There is no retransmission, so that whatever
    comes behind such a frame never gets out at the other end either. */
module FakeTcpLoss {
  import opened Base
  import opened FakeTcpSpec
  import opened FakeTcpOrder
  import opened FakeTcpTheorems
  import FakeTcpWrap

  // ---------------------------------------------------------------- what a send does

  /** A send that fails has nevertheless taken sequence numbers exactly when the frame
      passes the first size check and not the second: the flush goes through, the
      path is established, and the frame is among the last twenty sizes that the
      first check lets by. */
  lemma FailedSendNumbered(h: Host, id: PeerId, frame: Frame)
    ensures var r := Send(h, id, frame);
            !r.result.SendOk? && r.placed <==>
              && Flushed(h.outbox) == h.outbox && id in h.paths && h.paths[id].phase.Established?
              && MAX_WIRE_PAYLOAD < |frame| <= MAX_INNER_FRAME
    ensures var r := Send(h, id, frame);
            !r.result.SendOk? && r.placed ==>
              r.host.paths == h.paths[id := h.paths[id].(next := Wrap(h.paths[id].next + |frame|))] && r.wire == h.outbox
  {
  }

  /** A send succeeds exactly when the flush goes through and the path takes the
      frame: onto the wire if it is established, into the queue otherwise. */
  lemma SendSucceeds(h: Host, id: PeerId, frame: Frame)
    ensures Send(h, id, frame).result.SendOk? <==>
              && Flushed(h.outbox) == h.outbox && id in h.paths && |frame| <= MAX_INNER_FRAME
              && (if h.paths[id].phase.Established? then |frame| <= MAX_WIRE_PAYLOAD else |h.paths[id].pending| < h.capacity)
  {
  }

  /** How many packets go out before the first that does not fit. */
  function Fitting(outbox: seq<Packet>): (k: nat)
    ensures k <= |outbox| && (forall i :: 0 <= i < k ==> Fits(outbox[i])) && (k < |outbox| ==> !Fits(outbox[k]))
  {
    if outbox == [] || !Fits(outbox[0]) then 0 else 1 + Fitting(outbox[1..])
  }

  /** A flush sends exactly what is ahead of the first packet that does not fit, and
      drops that one and all behind it. */
  lemma {:induction false} FlushDrops(outbox: seq<Packet>)
    ensures Flushed(outbox) == outbox[..Fitting(outbox)]
  {
    if outbox != [] && Fits(outbox[0]) {
      FlushDrops(outbox[1..]);
    }
  }

  // ---------------------------------------------------------------- the wire

  /** The packet for place `i` of a line. */
  ghost predicate AtPlace(p: Packet, isn: nat, line: seq<Frame>, i: nat) {
    i < |line| && p.payload == line[i] && p.sequence == Wrap(isn + 1 + Offset(line, i))
  }

  /** A packet for place `i` has gone on the wire. */
  ghost predicate OnWire(sent: set<Packet>, isn: nat, line: seq<Frame>, i: nat) {
    exists p :: p in sent && AtPlace(p, isn, line, i)
  }

  /** Everything that came out had a packet on the wire. */
  ghost predicate Evident(sent: set<Packet>, isn: nat, line: seq<Frame>, got: seq<Frame>) {
    got <= line && forall i :: 0 <= i < |got| ==> OnWire(sent, isn, line, i)
  }

  lemma EvidentGrows(sent: set<Packet>, sent1: set<Packet>, isn: nat, line: seq<Frame>, f: Frame, got: seq<Frame>)
    requires Evident(sent, isn, line, got) && sent <= sent1
    ensures Evident(sent1, isn, line + NonEmpty(f), got)
  {
    forall i | 0 <= i < |got|
      ensures OnWire(sent1, isn, line + NonEmpty(f), i)
    {
      assert OnWire(sent, isn, line, i);
      var p :| p in sent && AtPlace(p, isn, line, i);
      if f == [] {
        assert line + NonEmpty(f) == line;
      } else {
        OffsetExtends(line, f, i);
      }
      assert p in sent1 && AtPlace(p, isn, line + NonEmpty(f), i);
    }
  }

  lemma EvidentTaken(sent: set<Packet>, isn: nat, line: seq<Frame>, got: seq<Frame>, p: Packet)
    requires Evident(sent, isn, line, got) && p in sent && got + [p.payload] <= line && p.sequence == Wrap(isn + 1 + Total(got))
    ensures Evident(sent, isn, line, got + [p.payload])
  {
    assert line[..|got|] == got;
    assert AtPlace(p, isn, line, |got|) by {
      assert (got + [p.payload])[|got|] == p.payload;
    }
    assert OnWire(sent, isn, line, |got|);
  }

  /** A frame comes out only of a packet that bears the expected number. */
  lemma GainedExpected(h: Host, p: Packet, isn: Option<nat>)
    ensures var g := Gained(h, HandleIncoming(h, p, isn));
            g != [] ==> && g == [p.payload] && p.source in h.peers && h.peers[p.source] in h.paths
                        && p.sequence == h.paths[h.peers[p.source]].expected && h.paths[h.peers[p.source]].phase.Established?
  {
  }

  // ---------------------------------------------------------------- runs

  ghost predicate WireInv(n: Net) {
    && Evident(n.fromClient, n.clientIsn, n.clientLine, n.atServer)
    && Evident(n.fromServer, n.serverIsn, n.serverLine, n.atClient)
    && (forall p :: p in n.fromClient ==> Fits(p))
    && (forall p :: p in n.fromServer ==> Fits(p))
  }

  lemma SendFits(h: Host, id: PeerId, frame: Frame)
    ensures forall p :: p in Send(h, id, frame).wire ==> Fits(p)
  {
  }

  lemma SendsWire(e: Setup, n: Net, s: Step)
    requires WireInv(n) && (s.ClientSends? || s.ServerSends?)
    ensures WireInv(Next(e, n, s))
  {
    hide Evident, Send, Fits;
    assert n.clientLine + NonEmpty([]) == n.clientLine && n.serverLine + NonEmpty([]) == n.serverLine;
    if s.ClientSends? {
      var r := Send(n.client, e.serverId, s.frame);
      SendFits(n.client, e.serverId, s.frame);
      EvidentGrows(n.fromClient, n.fromClient + Wire(r.wire), n.clientIsn, n.clientLine, if r.placed then s.frame else [], n.atServer);
    } else {
      var r := Send(n.server, PeerIdFor(e.client), s.frame);
      SendFits(n.server, PeerIdFor(e.client), s.frame);
      EvidentGrows(n.fromServer, n.fromServer + Wire(r.wire), n.serverIsn, n.serverLine, if r.placed then s.frame else [], n.atClient);
    }
  }

  lemma PollsWire(e: Setup, n: Net, s: Step)
    requires WireInv(n) && (s.ClientPolls? || s.ServerPolls?)
    ensures WireInv(Next(e, n, s))
  {
    hide Evident;
    assert n.clientLine + NonEmpty([]) == n.clientLine && n.serverLine + NonEmpty([]) == n.serverLine;
    if s.ClientPolls? {
      EvidentGrows(n.fromClient, n.fromClient + Wire(Poll(n.client).wire), n.clientIsn, n.clientLine, [], n.atServer);
    } else {
      EvidentGrows(n.fromServer, n.fromServer + Wire(Poll(n.server).wire), n.serverIsn, n.serverLine, [], n.atClient);
    }
  }

  lemma ToServerWire(e: Setup, n: Net, p: Packet, isn: Option<nat>)
    requires NetInv(e, n) && Short(n) && WireInv(n) && p in n.fromClient
    ensures WireInv(Next(e, n, ToServer(p, isn)))
  {
    var n1 := Next(e, n, ToServer(p, isn));
    var g := Gained(n.server, HandleIncoming(n.server, p, isn));
    GainedExpected(n.server, p, isn);
    ToServerInv(e, n, p, isn);
    ToServerTakes(e, n, n1, p, g);
    ServerIsnStays(e, n, p, isn);
  }

  /** The server's initial number is drawn before it has sent anything. */
  lemma ServerIsnStays(e: Setup, n: Net, p: Packet, isn: Option<nat>)
    requires NetInv(e, n) && WireInv(n)
    ensures Evident(n.fromServer, Next(e, n, ToServer(p, isn)).serverIsn, n.serverLine, n.atClient)
  {
    hide Wrap, Clean;
  }

  lemma ToServerTakes(e: Setup, n: Net, n1: Net, p: Packet, g: seq<Frame>)
    requires NetInv(e, n) && NetInv(e, n1) && WireInv(n) && p in n.fromClient
    requires n1.clientLine == n.clientLine && n1.atServer == n.atServer + g && n1.client == n.client
    requires g != [] ==> && g == [p.payload] && p.source in n.server.peers && n.server.peers[p.source] in n.server.paths
                         && p.sequence == n.server.paths[n.server.peers[p.source]].expected
    ensures Evident(n.fromClient, n.clientIsn, n.clientLine, n1.atServer)
  {
    hide Evident, Clean, Wrap, Total;
    if g == [] {
      assert n.atServer + g == n.atServer;
    } else {
      ExpectedAtServer(e, n, p.source);
      GotLines(e, n1);
      EvidentTaken(n.fromClient, n.clientIsn, n.clientLine, n.atServer, p);
    }
  }

  lemma ExpectedAtServer(e: Setup, n: Net, source: Addr)
    requires NetInv(e, n) && source in n.server.peers && n.server.peers[source] in n.server.paths
    ensures n.server.paths[n.server.peers[source]].expected == Wrap(n.clientIsn + 1 + Total(n.atServer))
  {
    hide Clean, Wrap, Total;
  }

  lemma ToClientWire(e: Setup, n: Net, p: Packet)
    requires NetInv(e, n) && Short(n) && WireInv(n) && p in n.fromServer
    ensures WireInv(Next(e, n, ToClient(p)))
  {
    hide Evident, Clean, Wrap, Total, HandleIncoming;
    var n1 := Next(e, n, ToClient(p));
    var g := Gained(n.client, HandleIncoming(n.client, p, None));
    GainedExpected(n.client, p, None);
    ToClientInv(e, n, p);
    if g == [] {
      assert n.atClient + g == n.atClient;
    } else {
      ExpectedAtClient(e, n, p.source);
      GotLines(e, n1);
      EvidentTaken(n.fromServer, n.serverIsn, n.serverLine, n.atClient, p);
    }
  }

  lemma ExpectedAtClient(e: Setup, n: Net, source: Addr)
    requires NetInv(e, n) && source in n.client.peers && n.client.peers[source] in n.client.paths
    requires n.client.paths[n.client.peers[source]].phase.Established?
    ensures n.client.paths[n.client.peers[source]].expected == Wrap(n.serverIsn + 1 + Total(n.atClient))
  {
    hide Clean, Wrap, Total;
  }

  lemma {:induction false} RunWire(e: Setup, isn: nat, steps: seq<Step>)
    requires ValidRun(e, isn, steps) && Short(Run(e, isn, steps))
    ensures WireInv(Run(e, isn, steps))
    decreases |steps|
  {
    hide WireInv, Short, NetInv, Next;
    if steps == [] {
      BeginWire(e, isn);
    } else {
      var before, s := steps[..|steps| - 1], steps[|steps| - 1];
      var n := Run(e, isn, before);
      LinesGrow(e, n, s);
      RunInv(e, isn, before);
      RunWire(e, isn, before);
      match s
      case ClientSends(_) => SendsWire(e, n, s);
      case ServerSends(_) => SendsWire(e, n, s);
      case ClientPolls => PollsWire(e, n, s);
      case ServerPolls => PollsWire(e, n, s);
      case ToServer(p, drawn) => ToServerWire(e, n, p, drawn);
      case ToClient(p) => ToClientWire(e, n, p);
    }
  }

  lemma BeginWire(e: Setup, isn: nat)
    ensures WireInv(Begin(e, isn))
  {
  }

  // ---------------------------------------------------------------- consequences

  /** While the packet for a place of a line has not gone on the wire, the other end
      has got no more frames than come before that place. */
  lemma UnsentBlocks(e: Setup, isn: nat, steps: seq<Step>, i: nat)
    requires ValidRun(e, isn, steps) && Short(Run(e, isn, steps))
    ensures var n := Run(e, isn, steps);
            && (!OnWire(n.fromClient, n.clientIsn, n.clientLine, i) ==> |n.atServer| <= i)
            && (!OnWire(n.fromServer, n.serverIsn, n.serverLine, i) ==> |n.atClient| <= i)
  {
    hide OnWire, Fits;
    RunWire(e, isn, steps);
    var n := Run(e, isn, steps);
    if |n.atServer| > i {
      assert OnWire(n.fromClient, n.clientIsn, n.clientLine, i);
    }
    if |n.atClient| > i {
      assert OnWire(n.fromServer, n.serverIsn, n.serverLine, i);
    }
  }

  /** A frame above the wire's limit that has a place in a line blocks the line for
      good: nothing from its place on is ever delivered. */
  lemma OversizedBlocks(e: Setup, isn: nat, steps: seq<Step>, i: nat)
    requires ValidRun(e, isn, steps) && Short(Run(e, isn, steps))
    ensures var n := Run(e, isn, steps);
            && (i < |n.clientLine| && |n.clientLine[i]| > MAX_WIRE_PAYLOAD ==> |n.atServer| <= i)
            && (i < |n.serverLine| && |n.serverLine[i]| > MAX_WIRE_PAYLOAD ==> |n.atClient| <= i)
  {
    RunWire(e, isn, steps);
    UnsentBlocks(e, isn, steps, i);
  }

  lemma {:induction false} LineStays(e: Setup, isn: nat, steps: seq<Step>, more: seq<Step>)
    requires ValidRun(e, isn, steps + more)
    ensures ValidRun(e, isn, steps) && Run(e, isn, steps).clientLine <= Run(e, isn, steps + more).clientLine
    decreases |more|
  {
    if more == [] {
      assert steps + more == steps;
    } else {
      assert (steps + more)[..|steps + more| - 1] == steps + more[..|more| - 1];
      LineStays(e, isn, steps, more[..|more| - 1]);
    }
  }

  /** The sizes in question, at an input. On an established path the send fails, yet
      from then on, whatever is sent and whatever the network does, nothing comes
      out at the other end. */
  lemma FailedSendStalls(big: Frame) returns (steps: seq<Step>)
    requires MAX_WIRE_PAYLOAD < |big| <= MAX_INNER_FRAME
    ensures ValidRun(FakeTcpWrap.E, 0, steps)
    ensures Send(Run(FakeTcpWrap.E, 0, steps).client, 7, big).result == FrameTooLarge
    ensures forall more ::
              var all := steps + [ClientSends(big)] + more;
              ValidRun(FakeTcpWrap.E, 0, all) && Short(Run(FakeTcpWrap.E, 0, all)) ==> Run(FakeTcpWrap.E, 0, all).atServer == []
  {
    steps := FakeTcpWrap.Opening();
    var n := FakeTcpWrap.Open(big);
    Numbers(n, big);
    FakeTcpWrap.OneMore(steps, ClientSends(big));
    forall more | ValidRun(FakeTcpWrap.E, 0, steps + [ClientSends(big)] + more) && Short(Run(FakeTcpWrap.E, 0, steps + [ClientSends(big)] + more))
      ensures Run(FakeTcpWrap.E, 0, steps + [ClientSends(big)] + more).atServer == []
    {
      Stalled(steps + [ClientSends(big)], more, big);
    }
  }

  lemma Numbers(n: Net, big: Frame)
    requires FakeTcpWrap.Reached(n, 0, big) && MAX_WIRE_PAYLOAD < |big| <= MAX_INNER_FRAME
    ensures Send(n.client, 7, big).result == FrameTooLarge && Next(FakeTcpWrap.E, n, ClientSends(big)).clientLine == [big]
  {
  }

  lemma Stalled(steps: seq<Step>, more: seq<Step>, big: Frame)
    requires ValidRun(FakeTcpWrap.E, 0, steps) && Run(FakeTcpWrap.E, 0, steps).clientLine == [big] && |big| > MAX_WIRE_PAYLOAD
    requires ValidRun(FakeTcpWrap.E, 0, steps + more) && Short(Run(FakeTcpWrap.E, 0, steps + more))
    ensures Run(FakeTcpWrap.E, 0, steps + more).atServer == []
  {
    LineStays(FakeTcpWrap.E, 0, steps, more);
    OversizedBlocks(FakeTcpWrap.E, 0, steps + more, 0);
  }

  /** Before the handshake the same send succeeds, with the same consequence. */
  lemma QueuedSendStalls(big: Frame)
    requires MAX_WIRE_PAYLOAD < |big| <= MAX_INNER_FRAME
    ensures Send(Begin(FakeTcpWrap.E, 0).client, 7, big).result == SendOk
    ensures forall more ::
              var all := [ClientSends(big)] + more;
              ValidRun(FakeTcpWrap.E, 0, all) && Short(Run(FakeTcpWrap.E, 0, all)) ==> Run(FakeTcpWrap.E, 0, all).atServer == []
  {
    FakeTcpWrap.OneMore([], ClientSends(big));
    assert [] + [ClientSends(big)] == [ClientSends(big)];
    Queues(big);
    forall more | ValidRun(FakeTcpWrap.E, 0, [ClientSends(big)] + more) && Short(Run(FakeTcpWrap.E, 0, [ClientSends(big)] + more))
      ensures Run(FakeTcpWrap.E, 0, [ClientSends(big)] + more).atServer == []
    {
      Stalled([ClientSends(big)], more, big);
    }
  }

  lemma Queues(big: Frame)
    requires MAX_WIRE_PAYLOAD < |big| <= MAX_INNER_FRAME
    ensures var n := Begin(FakeTcpWrap.E, 0);
            Send(n.client, 7, big).result == SendOk && Next(FakeTcpWrap.E, n, ClientSends(big)).clientLine == [big]
  {
    var outbox := Begin(FakeTcpWrap.E, 0).client.outbox;
    assert outbox == [outbox[0]] && Fits(outbox[0]);
  }
}
