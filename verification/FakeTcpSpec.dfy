/** The FakeTCP transport: one path per peer, sequence numbers modulo 2^32, no
    retransmission. */
module FakeTcpSpec {
  import opened Base

  const WORD: nat := 0x1_0000_0000
  const MAX_INNER_FRAME: nat := 65535 - 20
  const MAX_WIRE_PAYLOAD: nat := 65535 - 20 - 20

  type Addr = (nat, nat)
  type PeerId = nat
  type Frame = seq<byte>

  datatype Flag = Fin | Syn | Rst | Psh | Ack | Urg | Ece | Cwr

  datatype Packet = Packet(source: Addr, destination: Addr, sequence: nat, ack: nat, flags: set<Flag>, payload: Frame)

  datatype Role = ClientRole | ServerRole

  datatype Phase = ClientSynSent | ServerSynAckSent | Established

  datatype Path = Path(peer: Addr, peerId: PeerId, phase: Phase, next: nat, expected: nat, pending: seq<Frame>)

  datatype Inbound = Inbound(peerId: PeerId, frame: Frame)

  datatype Host = Host(role: Role, local: Addr, paths: map<PeerId, Path>, peers: map<Addr, PeerId>,
                       incoming: seq<Inbound>, outbox: seq<Packet>, capacity: nat)

  function NewHost(role: Role, local: Addr, capacity: nat): Host {
    Host(role, local, map[], map[], [], [], capacity)
  }

  /** `u32::wrapping_add`: the sum brought back below 2^32. */
  function Wrap(n: nat): nat {
    if n < WORD then n else Wrap(n - WORD)
  }

  lemma {:induction false} WrapIsRemainder(n: nat)
    ensures Wrap(n) == n % WORD
  {
    if n >= WORD {
      WrapIsRemainder(n - WORD);
    }
  }

  /** `peer_id_for`: the address and the port side by side. */
  function PeerIdFor(a: Addr): PeerId {
    a.0 * 65536 + a.1
  }

  /** `install_client_path`, with the drawn initial sequence number. */
  function Install(h: Host, peer: Addr, peerId: PeerId, isn: nat): Host {
    h.(peers := h.peers[peer := peerId],
       paths := h.paths[peerId := Path(peer, peerId, ClientSynSent, Wrap(isn + 1), 0, [])],
       outbox := h.outbox + [Packet(h.local, peer, isn, 0, {Syn}, [])])
  }

  /** The packets of frames that have waited for the handshake. */
  function Queued(path: Path, local: Addr, frames: seq<Frame>): seq<Packet>
    decreases |frames|
  {
    if frames == [] then []
    else
      [Packet(local, path.peer, path.next, path.expected, {Ack, Psh}, frames[0])]
      + Queued(path.(next := Wrap(path.next + |frames[0]|)), local, frames[1..])
  }

  function Advanced(next: nat, frames: seq<Frame>): nat
    decreases |frames|
  {
    if frames == [] then next else Advanced(Wrap(next + |frames[0]|), frames[1..])
  }

  /** `queue_pending_frames`. */
  function Drained(path: Path): Path {
    path.(next := Advanced(path.next, path.pending), pending := [])
  }

  /** A first SYN at a server. */
  function Welcome(h: Host, p: Packet, isn: Option<nat>): Host {
    var id := PeerIdFor(p.source);
    if id in h.paths || isn.None? then h
    else
      h.(peers := h.peers[p.source := id],
         paths := h.paths[id := Path(p.source, id, ServerSynAckSent, Wrap(isn.value + 1), Wrap(p.sequence + 1), [])],
         outbox := h.outbox + [Packet(h.local, p.source, isn.value, Wrap(p.sequence + 1), {Syn, Ack}, [])])
  }

  /** The client's handshake completes. */
  function Connected(h: Host, id: PeerId, path: Path, p: Packet): Host {
    var up := path.(expected := Wrap(p.sequence + 1), phase := Established);
    h.(paths := h.paths[id := Drained(up)],
       outbox := h.outbox + [Packet(h.local, p.source, up.next, up.expected, {Ack}, [])] + Queued(up, h.local, up.pending))
  }

  /** The server's handshake completes. */
  function Accepted(h: Host, id: PeerId, path: Path): Host {
    var up := path.(phase := Established);
    h.(paths := h.paths[id := Drained(up)], outbox := h.outbox + Queued(up, h.local, up.pending))
  }

  /** A frame in sequence. */
  function Taken(h: Host, id: PeerId, path: Path, p: Packet): Host {
    var on := path.(expected := Wrap(path.expected + |p.payload|));
    h.(paths := h.paths[id := on],
       outbox := h.outbox + [Packet(h.local, p.source, on.next, on.expected, {Ack}, [])],
       incoming := h.incoming + [Inbound(path.peerId, p.payload)])
  }

  /** `handle_incoming`; `isn` is what the generator yields if asked. */
  function HandleIncoming(h: Host, p: Packet, isn: Option<nat>): Host {
    if p.source !in h.peers then
      if h.role.ServerRole? && p.flags == {Syn} then Welcome(h, p, isn) else h
    else
      var id := h.peers[p.source];
      if id !in h.paths then h
      else
        var path := h.paths[id];
        if h.role.ClientRole? && path.phase.ClientSynSent? && p.flags == {Syn, Ack} && p.ack == path.next then
          Connected(h, id, path, p)
        else if h.role.ServerRole? && path.phase.ServerSynAckSent? && p.flags == {Ack} && p.sequence == path.expected
                && p.ack == path.next then
          Accepted(h, id, path)
        else if path.phase.Established? && Rst in p.flags then
          h.(peers := h.peers - {p.source}, paths := h.paths - {id})
        else if path.phase.Established? && p.payload != [] && p.sequence == path.expected && p.ack == path.next then
          if |h.incoming| >= h.capacity then h else Taken(h, id, path, p)
        else h
  }

  datatype SendResult = SendOk | FrameTooLarge | UnknownPeer | HandshakePending

  /** A packet fits an IPv4 datagram. The limit that `send` checks first leaves
      out one header, so that the largest frames get past it and fail here. */
  predicate Fits(p: Packet) {
    |p.payload| <= MAX_WIRE_PAYLOAD
  }

  /** `flush_pending`: the queue is emptied, and sent up to the first packet that
      does not fit. */
  function Flushed(outbox: seq<Packet>): (wire: seq<Packet>)
    ensures forall p :: p in wire ==> p in outbox && Fits(p)
    ensures (forall p :: p in outbox ==> Fits(p)) ==> wire == outbox
  {
    if outbox == [] || !Fits(outbox[0]) then [] else [outbox[0]] + Flushed(outbox[1..])
  }

  /** The effect of `send`: what goes on the wire, and whether the frame took a
      place in the sequence (or in the queue before it). */
  datatype Sent = Sent(host: Host, result: SendResult, wire: seq<Packet>, placed: bool)

  function Send(h: Host, peerId: PeerId, frame: Frame): Sent {
    var flushed := h.(outbox := []);
    var wire := Flushed(h.outbox);
    if wire != h.outbox || |frame| > MAX_INNER_FRAME then Sent(flushed, FrameTooLarge, wire, false)
    else if peerId !in h.paths then Sent(flushed, UnknownPeer, wire, false)
    else
      var path := h.paths[peerId];
      if !path.phase.Established? then
        if |path.pending| >= h.capacity then Sent(flushed, HandshakePending, wire, false)
        else Sent(flushed.(paths := h.paths[peerId := path.(pending := path.pending + [frame])]), SendOk, wire, true)
      else
        var raw := Packet(h.local, path.peer, path.next, path.expected, {Ack, Psh}, frame);
        var on := flushed.(paths := h.paths[peerId := path.(next := Wrap(path.next + |frame|))]);
        if Fits(raw) then Sent(on, SendOk, wire + [raw], true) else Sent(on, FrameTooLarge, wire, true)
  }

  /** `poll_receive`: flush, then the oldest frame received, if the flush went
      through. */
  datatype Polled = Polled(host: Host, packet: Option<Inbound>, ok: bool, wire: seq<Packet>)

  function Poll(h: Host): Polled {
    var flushed := h.(outbox := []);
    var wire := Flushed(h.outbox);
    if wire != h.outbox then Polled(flushed, None, false, wire)
    else if h.incoming == [] then Polled(flushed, None, true, wire)
    else Polled(flushed.(incoming := h.incoming[1..]), Some(h.incoming[0]), true, wire)
  }

  // ---------------------------------------------------------------- the two maps

  /** `peers` and `paths` are mutually inverse. */
  ghost predicate Paired(h: Host) {
    && (forall a :: a in h.peers ==> h.peers[a] in h.paths && h.paths[h.peers[a]].peer == a)
    && (forall id :: id in h.paths ==> h.paths[id].peer in h.peers && h.peers[h.paths[id].peer] == id && h.paths[id].peerId == id)
  }

  /** Addresses are 32-bit, ports 16-bit: the identifier determines both. */
  lemma PeerIdInjective(a: Addr, b: Addr)
    requires a.1 < 65536 && b.1 < 65536 && PeerIdFor(a) == PeerIdFor(b)
    ensures a == b
  {
  }

  /** Installing keeps the two maps inverse exactly when neither the address nor the
      identifier belongs to another pair. */
  lemma InstallPairs(h: Host, peer: Addr, peerId: PeerId, isn: nat)
    requires Paired(h)
    ensures Paired(Install(h, peer, peerId, isn)) <==> Installable(h, peer, peerId)
  {
    var h1 := Install(h, peer, peerId, isn);
    if !Installable(h, peer, peerId) {
      if peer in h.peers && h.peers[peer] != peerId {
        assert h.peers[peer] in h1.paths && h1.paths[h.peers[peer]].peer == peer;
      } else {
        assert h.paths[peerId].peer in h1.peers;
      }
    }
  }

  predicate Installable(h: Host, peer: Addr, peerId: PeerId) {
    && (peer in h.peers ==> h.peers[peer] == peerId)
    && (peerId in h.paths ==> h.paths[peerId].peer == peer)
  }

  /** One path changed, its two ends kept. */
  ghost predicate Repathed(h: Host, h1: Host, id: PeerId) {
    && id in h.paths && id in h1.paths && h1.peers == h.peers && h1.paths == h.paths[id := h1.paths[id]]
    && h1.paths[id].peer == h.paths[id].peer && h1.paths[id].peerId == h.paths[id].peerId
  }

  lemma RepathPairs(h: Host, h1: Host, id: PeerId)
    requires Paired(h) && Repathed(h, h1, id)
    ensures Paired(h1)
  {
  }

  lemma WelcomePairs(h: Host, p: Packet, isn: Option<nat>)
    requires Paired(h) && p.source !in h.peers
    ensures Paired(Welcome(h, p, isn)) && forall id :: id in h.paths ==> id in Welcome(h, p, isn).paths && Welcome(h, p, isn).paths[id] == h.paths[id]
  {
    hide Wrap, PeerIdFor;
  }

  lemma ResetPairs(h: Host, source: Addr)
    requires Paired(h) && source in h.peers
    ensures Paired(h.(peers := h.peers - {source}, paths := h.paths - {h.peers[source]}))
  {
  }

  /** Whatever arrives, the two maps stay inverse, and no path but the sender's is
      touched. */
  lemma IncomingPairs(h: Host, p: Packet, isn: Option<nat>)
    requires Paired(h)
    ensures Paired(HandleIncoming(h, p, isn))
    ensures var h1 := HandleIncoming(h, p, isn);
            forall id :: id in h.paths && h.paths[id].peer != p.source ==> id in h1.paths && h1.paths[id] == h.paths[id]
  {
    hide Queued, Advanced, Wrap, Welcome;
    var h1 := HandleIncoming(h, p, isn);
    if p.source !in h.peers {
      WelcomePairs(h, p, isn);
    } else {
      var id := h.peers[p.source];
      ResetPairs(h, p.source);
      if id in h1.paths {
        assert Repathed(h, h1, id);
        RepathPairs(h, h1, id);
      }
    }
  }

  lemma SendPairs(h: Host, peerId: PeerId, frame: Frame)
    requires Paired(h)
    ensures var h1 := Send(h, peerId, frame).host;
            Paired(h1) && h1.peers == h.peers && forall id :: id in h.paths && id != peerId ==> h1.paths[id] == h.paths[id]
  {
    hide Flushed, Wrap, Paired;
    var h1 := Send(h, peerId, frame).host;
    if peerId in h.paths {
      assert Repathed(h, h1, peerId);
      RepathPairs(h, h1, peerId);
    } else {
      SamePairs(h, h1);
    }
  }

  lemma SamePairs(h: Host, h1: Host)
    requires Paired(h) && h1.paths == h.paths && h1.peers == h.peers
    ensures Paired(h1)
  {
  }

  lemma PollPairs(h: Host)
    requires Paired(h)
    ensures Paired(Poll(h).host) && Poll(h).host.paths == h.paths && Poll(h).host.peers == h.peers
  {
  }
}
