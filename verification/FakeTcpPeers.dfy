/** One host with any number of peers, over whole runs. */
module FakeTcpPeers {
  import opened Base
  import opened FakeTcpSpec

  datatype HostStep =
    | Installs(peer: Addr, peerId: PeerId, isn: nat)
    | Sends(to: PeerId, frame: Frame)
    | Polls
    | Arrives(packet: Packet, drawn: Option<nat>)

  function HostNext(h: Host, s: HostStep): Host {
    match s
    case Installs(peer, peerId, isn) => Install(h, peer, peerId, isn)
    case Sends(to, frame) => Send(h, to, frame).host
    case Polls => Poll(h).host
    case Arrives(p, drawn) => HandleIncoming(h, p, drawn)
  }

  function HostRun(h: Host, steps: seq<HostStep>): Host {
    if steps == [] then h else HostNext(HostRun(h, steps[..|steps| - 1]), steps[|steps| - 1])
  }

  /** Every path that is installed goes to a new address under a new identifier, or
      replaces its own. Everything else is unconstrained: any send, any poll, any
      packet from anywhere, resets and forgeries included. */
  ghost predicate Disjointly(h: Host, steps: seq<HostStep>) {
    steps != [] ==>
      && Disjointly(h, steps[..|steps| - 1])
      && var s := steps[|steps| - 1];
         (s.Installs? ==> Installable(HostRun(h, steps[..|steps| - 1]), s.peer, s.peerId))
  }

  /** In every run `peers` and `paths` stay mutually inverse. */
  lemma {:induction false} RunPairs(role: Role, local: Addr, capacity: nat, steps: seq<HostStep>)
    requires Disjointly(NewHost(role, local, capacity), steps)
    ensures Paired(HostRun(NewHost(role, local, capacity), steps))
    decreases |steps|
  {
    if steps != [] {
      var before := steps[..|steps| - 1];
      RunPairs(role, local, capacity, before);
      var h := HostRun(NewHost(role, local, capacity), before);
      match steps[|steps| - 1]
      case Installs(peer, peerId, isn) => InstallPairs(h, peer, peerId, isn);
      case Sends(to, frame) => SendPairs(h, to, frame);
      case Polls => PollPairs(h);
      case Arrives(p, drawn) => IncomingPairs(h, p, drawn);
    }
  }

  // ---------------------------------------------------------------- servers

  /** A server installs nothing: its paths come from first packets. */
  ghost predicate Serves(steps: seq<HostStep>) {
    forall s :: s in steps ==> !s.Installs?
  }

  /** A server's path bears the identifier of its address. */
  ghost predicate Named(h: Host) {
    h.role.ServerRole? && forall id :: id in h.paths ==> id == PeerIdFor(h.paths[id].peer)
  }

  lemma NamedStep(h: Host, s: HostStep)
    requires Named(h) && Paired(h) && !s.Installs?
    ensures Named(HostNext(h, s))
  {
    hide PeerIdFor;
  }

  lemma {:induction false} RunNamed(local: Addr, capacity: nat, steps: seq<HostStep>)
    requires Serves(steps)
    ensures var h := HostRun(NewHost(ServerRole, local, capacity), steps);
            Named(h) && Paired(h) && Disjointly(NewHost(ServerRole, local, capacity), steps)
    decreases |steps|
  {
    if steps != [] {
      var before := steps[..|steps| - 1];
      assert steps[|steps| - 1] in steps;
      RunNamed(local, capacity, before);
      NamedStep(HostRun(NewHost(ServerRole, local, capacity), before), steps[|steps| - 1]);
    }
    RunPairs(ServerRole, local, capacity, steps);
  }

  /** After any run of a server, a first packet from an address without a path opens
      one: no other address, port included, can be in its way. */
  lemma FirstPacketOpens(local: Addr, capacity: nat, steps: seq<HostStep>, p: Packet, isn: nat)
    requires Serves(steps) && p.flags == {Syn} && p.source.1 < 65536
    requires var h := HostRun(NewHost(ServerRole, local, capacity), steps);
             p.source !in h.peers && forall id :: id in h.paths ==> h.paths[id].peer.1 < 65536
    ensures var h := HostRun(NewHost(ServerRole, local, capacity), steps);
            var h1 := HandleIncoming(h, p, Some(isn)); var id := PeerIdFor(p.source);
            && id !in h.paths && p.source in h1.peers && h1.peers[p.source] == id
            && h1.paths == h.paths[id := Path(p.source, id, ServerSynAckSent, Wrap(isn + 1), Wrap(p.sequence + 1), [])]
  {
    hide HostRun, Wrap;
    RunNamed(local, capacity, steps);
    var h := HostRun(NewHost(ServerRole, local, capacity), steps);
    var id := PeerIdFor(p.source);
    if id in h.paths {
      PeerIdInjective(p.source, h.paths[id].peer);
      assert false;
    }
  }
}
