/** The transport's shared state as the program keeps it. */
module FakeTcpTransport {
  import opened Base
  import Spec = FakeTcpSpec
  import opened FakeTcpSpec

  lemma {:induction false} QueuedLast(path: Path, local: Addr, frames: seq<Frame>, f: Frame)
    ensures Queued(path, local, frames + [f])
            == Queued(path, local, frames)
               + [Packet(local, path.peer, Advanced(path.next, frames), path.expected, {Ack, Psh}, f)]
    ensures Advanced(path.next, frames + [f]) == Wrap(Advanced(path.next, frames) + |f|)
    decreases |frames|
  {
    if frames == [] {
      assert frames + [f] == [f];
      assert Queued(path.(next := Wrap(path.next + |f|)), local, [f][1..]) == [];
    } else {
      assert (frames + [f])[1..] == frames[1..] + [f] && (frames + [f])[0] == frames[0];
      QueuedLast(path.(next := Wrap(path.next + |frames[0]|)), local, frames[1..], f);
    }
  }

  lemma {:induction false} FlushedUpTo(outbox: seq<Packet>, n: nat)
    requires n <= |outbox| && (forall i :: 0 <= i < n ==> Fits(outbox[i])) && (n < |outbox| ==> !Fits(outbox[n]))
    ensures Flushed(outbox) == outbox[..n]
  {
    if n > 0 {
      FlushedUpTo(outbox[1..], n - 1);
    }
  }

  class Transport {
    const role: Role
    const local: Addr
    const capacity: nat
    var paths: map<PeerId, Path>
    var peers: map<Addr, PeerId>
    var incoming: seq<Inbound>
    var outbox: seq<Packet>

    function View(): Host
      reads this
    {
      Host(role, local, paths, peers, incoming, outbox, capacity)
    }

    constructor (role: Role, local: Addr, capacity: nat)
      ensures View() == NewHost(role, local, capacity)
    {
      this.role, this.local, this.capacity := role, local, capacity;
      paths, peers, incoming, outbox := map[], map[], [], [];
    }

    /** `install_client_path`. */
    method InstallClientPath(peer: Addr, peerId: PeerId, isn: nat)
      modifies this
      ensures View() == Install(old(View()), peer, peerId, isn)
    {
      peers := peers[peer := peerId];
      paths := paths[peerId := Path(peer, peerId, ClientSynSent, Wrap(isn + 1), 0, [])];
      outbox := outbox + [Packet(local, peer, isn, 0, {Syn}, [])];
    }

    /** `queue_pending_frames`: the frames that waited, front to back. */
    method QueuePendingFrames(path: Path) returns (drained: Path)
      modifies `outbox
      ensures drained == Drained(path)
      ensures outbox == old(outbox) + Queued(path, local, path.pending)
    {
      drained := path;
      ghost var done: seq<Frame> := [];
      assert outbox == old(outbox) + Queued(path, local, []);
      while drained.pending != []
        invariant done + drained.pending == path.pending
        invariant drained == path.(next := Advanced(path.next, done), pending := drained.pending)
        invariant outbox == old(outbox) + Queued(path, local, done)
        decreases |drained.pending|
      {
        var payload := drained.pending[0];
        QueuedLast(path, local, done, payload);
        outbox := outbox + [Packet(local, drained.peer, drained.next, drained.expected, {Ack, Psh}, payload)];
        drained := drained.(next := Wrap(drained.next + |payload|), pending := drained.pending[1..]);
        done := done + [payload];
      }
      assert done == path.pending;
    }

    /** `handle_incoming`. */
    method HandleIncoming(p: Packet, isn: Option<nat>)
      modifies this
      ensures View() == Spec.HandleIncoming(old(View()), p, isn)
    {
      if p.source !in peers {
        if role.ServerRole? && p.flags == {Syn} {
          var id := PeerIdFor(p.source);
          if id in paths || isn.None? {
            return;
          }
          peers := peers[p.source := id];
          paths := paths[id := Path(p.source, id, ServerSynAckSent, Wrap(isn.value + 1), Wrap(p.sequence + 1), [])];
          outbox := outbox + [Packet(local, p.source, isn.value, Wrap(p.sequence + 1), {Syn, Ack}, [])];
        }
        return;
      }
      var id := peers[p.source];
      if id !in paths {
        return;
      }
      var path := paths[id];
      if role.ClientRole? && path.phase.ClientSynSent? && p.flags == {Syn, Ack} && p.ack == path.next {
        path := path.(expected := Wrap(p.sequence + 1), phase := Established);
        outbox := outbox + [Packet(local, p.source, path.next, path.expected, {Ack}, [])];
        path := QueuePendingFrames(path);
        paths := paths[id := path];
      } else if role.ServerRole? && path.phase.ServerSynAckSent? && p.flags == {Ack} && p.sequence == path.expected
                && p.ack == path.next {
        path := path.(phase := Established);
        path := QueuePendingFrames(path);
        paths := paths[id := path];
      } else if path.phase.Established? && Rst in p.flags {
        peers := peers - {p.source};
        paths := paths - {id};
      } else if path.phase.Established? && p.payload != [] && p.sequence == path.expected && p.ack == path.next {
        if |incoming| >= capacity {
          return;
        }
        path := path.(expected := Wrap(path.expected + |p.payload|));
        paths := paths[id := path];
        outbox := outbox + [Packet(local, p.source, path.next, path.expected, {Ack}, [])];
        incoming := incoming + [Inbound(path.peerId, p.payload)];
      }
    }

    /** `flush_pending`: empties the queue onto the wire. */
    method FlushPending() returns (wire: seq<Packet>, ok: bool)
      modifies `outbox
      ensures outbox == [] && wire == Flushed(old(outbox)) && (ok <==> wire == old(outbox))
    {
      var queue := outbox;
      outbox := [];
      var n := 0;
      while n < |queue| && Fits(queue[n])
        invariant 0 <= n <= |queue| && forall i :: 0 <= i < n ==> Fits(queue[i])
      {
        n := n + 1;
      }
      FlushedUpTo(queue, n);
      wire := queue[..n];
      ok := n == |queue|;
    }

    /** `send`. */
    method SendFrame(peerId: PeerId, frame: Frame) returns (result: SendResult, wire: seq<Packet>)
      modifies this
      ensures var s := Send(old(View()), peerId, frame);
              View() == s.host && result == s.result && wire == s.wire
    {
      var ok;
      wire, ok := FlushPending();
      if !ok || |frame| > MAX_INNER_FRAME {
        return FrameTooLarge, wire;
      }
      if peerId !in paths {
        return UnknownPeer, wire;
      }
      var path := paths[peerId];
      if !path.phase.Established? {
        if |path.pending| >= capacity {
          return HandshakePending, wire;
        }
        paths := paths[peerId := path.(pending := path.pending + [frame])];
        return SendOk, wire;
      }
      var raw := Packet(local, path.peer, path.next, path.expected, {Ack, Psh}, frame);
      paths := paths[peerId := path.(next := Wrap(path.next + |frame|))];
      if !Fits(raw) {
        return FrameTooLarge, wire;
      }
      return SendOk, wire + [raw];
    }

    /** `poll_receive`. */
    method PollReceive() returns (packet: Option<Inbound>, ok: bool, wire: seq<Packet>)
      modifies this
      ensures var r := Poll(old(View()));
              View() == r.host && packet == r.packet && ok == r.ok && wire == r.wire
    {
      wire, ok := FlushPending();
      packet := None;
      if ok && incoming != [] {
        packet := Some(incoming[0]);
        incoming := incoming[1..];
      }
    }
  }
}
