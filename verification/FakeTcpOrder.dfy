/** One FakeTCP connection over a network that loses, repeats and reorders. */
module FakeTcpOrder {
  import opened Base
  import opened FakeTcpSpec

  // ---------------------------------------------------------------- positions in a stream

  function Total(frames: seq<Frame>): nat {
    if frames == [] then 0 else Total(frames[..|frames| - 1]) + |frames[|frames| - 1]|
  }

  /** Where frame `i` starts. */
  function Offset(frames: seq<Frame>, i: nat): nat
    requires i <= |frames|
  {
    Total(frames[..i])
  }

  ghost predicate AllSolid(frames: seq<Frame>) {
    forall f :: f in frames ==> f != []
  }

  function NonEmpty(f: Frame): seq<Frame> {
    if f == [] then [] else [f]
  }

  /** The frames that are not empty: only those advance the sequence. */
  function Solid(frames: seq<Frame>): seq<Frame> {
    if frames == [] then [] else NonEmpty(frames[0]) + Solid(frames[1..])
  }

  lemma {:induction false} SolidSolid(frames: seq<Frame>)
    ensures AllSolid(Solid(frames))
  {
    if frames != [] {
      SolidSolid(frames[1..]);
    }
  }

  lemma {:induction false} SolidAppend(frames: seq<Frame>, f: Frame)
    ensures Solid(frames + [f]) == Solid(frames) + NonEmpty(f)
  {
    if frames == [] {
      assert frames + [f] == [f];
    } else {
      assert (frames + [f])[1..] == frames[1..] + [f];
      SolidAppend(frames[1..], f);
    }
  }

  lemma {:induction false} OffsetsAscend(frames: seq<Frame>, i: nat, j: nat)
    requires AllSolid(frames) && i < j <= |frames|
    ensures Offset(frames, i) < Offset(frames, j)
    decreases j
  {
    var n := j - 1;
    assert frames[..j][..n] == frames[..n] && frames[n] in frames;
    if i < n {
      OffsetsAscend(frames, i, n);
    }
  }

  lemma TotalExtends(frames: seq<Frame>, f: Frame)
    ensures Total(frames + [f]) == Total(frames) + |f|
  {
    assert (frames + [f])[..|frames|] == frames;
  }

  lemma OffsetExtends(frames: seq<Frame>, f: Frame, i: nat)
    requires i <= |frames|
    ensures Offset(frames + [f], i) == Offset(frames, i)
  {
    assert (frames + [f])[..i] == frames[..i];
  }

  lemma WrapApart(a: nat, x: nat, y: nat)
    requires x < WORD && y < WORD && Wrap(a + x) == Wrap(a + y)
    ensures x == y
  {
    WrapIsRemainder(a + x);
    WrapIsRemainder(a + y);
  }

  lemma WrapAdd(a: nat, b: nat)
    ensures Wrap(Wrap(a) + b) == Wrap(a + b)
  {
    WrapIsRemainder(a);
    WrapIsRemainder(Wrap(a) + b);
    WrapIsRemainder(a + b);
  }

  // ---------------------------------------------------------------- packets and frames

  /** The packet carries the frame of its place in the line. */
  ghost predicate Placed(p: Packet, isn: nat, line: seq<Frame>) {
    exists i :: 0 <= i < |line| && p.payload == line[i] && p.sequence == Wrap(isn + 1 + Offset(line, i))
  }

  lemma PlacedExtends(p: Packet, isn: nat, line: seq<Frame>, f: Frame)
    requires Placed(p, isn, line)
    ensures Placed(p, isn, line + [f])
  {
    var i :| 0 <= i < |line| && p.payload == line[i] && p.sequence == Wrap(isn + 1 + Offset(line, i));
    OffsetExtends(line, f, i);
    assert (line + [f])[i] == line[i];
  }

  lemma OffsetBound(line: seq<Frame>, i: nat)
    requires AllSolid(line) && i <= |line|
    ensures Offset(line, i) <= Total(line)
  {
    assert line[..|line|] == line;
    if i < |line| {
      OffsetsAscend(line, i, |line|);
    }
  }

  lemma OffsetsDiffer(line: seq<Frame>, i: nat, j: nat)
    requires AllSolid(line) && i <= |line| && j <= |line| && Offset(line, i) == Offset(line, j)
    ensures i == j
  {
    if i < j {
      OffsetsAscend(line, i, j);
    } else if j < i {
      OffsetsAscend(line, j, i);
    }
  }

  lemma SamePlace(isn: nat, line: seq<Frame>, i: nat, j: nat)
    requires AllSolid(line) && i <= |line| && j <= |line| && Total(line) < WORD
    requires Wrap(isn + 1 + Offset(line, i)) == Wrap(isn + 1 + Offset(line, j))
    ensures i == j
  {
    OffsetBound(line, i);
    OffsetBound(line, j);
    WrapApart(isn + 1, Offset(line, i), Offset(line, j));
    OffsetsDiffer(line, i, j);
  }

  /** With fewer than 2^32 bytes in all, the expected number is that of the next
      frame, and of no other. */
  lemma NextInLine(p: Packet, isn: nat, line: seq<Frame>, n: nat)
    requires Placed(p, isn, line) && AllSolid(line) && n <= |line| && Total(line) < WORD
    requires p.sequence == Wrap(isn + 1 + Offset(line, n))
    ensures n < |line| && p.payload == line[n]
  {
    var i :| 0 <= i < |line| && p.payload == line[i] && p.sequence == Wrap(isn + 1 + Offset(line, i));
    SamePlace(isn, line, i, n);
  }

  // ---------------------------------------------------------------- two hosts

  datatype Setup = Setup(client: Addr, server: Addr, serverId: PeerId, capacity: nat)

  /** `clientLine` and `serverLine` are the non-empty frames handed to `send`, in
      order; `atServer` and `atClient` those that came out at the other end. */
  datatype Net = Net(client: Host, server: Host, fromClient: set<Packet>, fromServer: set<Packet>,
                     clientIsn: nat, serverIsn: nat,
                     clientLine: seq<Frame>, serverLine: seq<Frame>, atServer: seq<Frame>, atClient: seq<Frame>)

  function Begin(e: Setup, isn: nat): Net {
    Net(Install(NewHost(ClientRole, e.client, e.capacity), e.server, e.serverId, isn), NewHost(ServerRole, e.server, e.capacity),
        {}, {}, isn, 0, [], [], [], [])
  }

  datatype Step =
    | ClientSends(frame: Frame)
    | ServerSends(frame: Frame)
    | ClientPolls
    | ServerPolls
    | ToServer(packet: Packet, isn: Option<nat>)
    | ToClient(packet: Packet)

  function Wire(ps: seq<Packet>): set<Packet> {
    set p | p in ps
  }

  /** The frame that an arrival adds to the receive queue, if any. */
  function Gained(before: Host, after: Host): seq<Frame> {
    if |after.incoming| > |before.incoming| then [after.incoming[|after.incoming| - 1].frame] else []
  }

  function Next(e: Setup, n: Net, s: Step): Net {
    match s
    case ClientSends(frame) =>
      var r := Send(n.client, e.serverId, frame);
      n.(client := r.host, fromClient := n.fromClient + Wire(r.wire),
         clientLine := if r.placed then n.clientLine + NonEmpty(frame) else n.clientLine)
    case ServerSends(frame) =>
      var r := Send(n.server, PeerIdFor(e.client), frame);
      n.(server := r.host, fromServer := n.fromServer + Wire(r.wire),
         serverLine := if r.placed then n.serverLine + NonEmpty(frame) else n.serverLine)
    case ClientPolls =>
      var r := Poll(n.client);
      n.(client := r.host, fromClient := n.fromClient + Wire(r.wire))
    case ServerPolls =>
      var r := Poll(n.server);
      n.(server := r.host, fromServer := n.fromServer + Wire(r.wire))
    case ToServer(p, isn) =>
      var h := HandleIncoming(n.server, p, isn);
      n.(server := h, atServer := n.atServer + Gained(n.server, h),
         serverIsn := if n.server.paths == map[] && h.paths != map[] && isn.Some? then isn.value else n.serverIsn)
    case ToClient(p) =>
      var h := HandleIncoming(n.client, p, None);
      n.(client := h, atClient := n.atClient + Gained(n.client, h))
  }

  /** The network hands over, any number of times, what was sent. */
  ghost predicate Enabled(n: Net, s: Step) {
    match s
    case ToServer(p, isn) => p in n.fromClient
    case ToClient(p) => p in n.fromServer
    case _ => true
  }

  function Run(e: Setup, isn: nat, steps: seq<Step>): Net {
    if steps == [] then Begin(e, isn) else Next(e, Run(e, isn, steps[..|steps| - 1]), steps[|steps| - 1])
  }

  ghost predicate ValidRun(e: Setup, isn: nat, steps: seq<Step>) {
    steps != [] ==>
      && ValidRun(e, isn, steps[..|steps| - 1])
      && Enabled(Run(e, isn, steps[..|steps| - 1]), steps[|steps| - 1])
  }
}
