/** Where ordered delivery ends: after exactly 2^32 bytes the numbers repeat. */
module FakeTcpWrap {
  import opened Base
  import opened FakeTcpSpec
  import opened FakeTcpOrder
  import opened FakeTcpTheorems

  const E: Setup := Setup((1, 1), (2, 2), 7, 1)

  /** The client's packet for the frame at byte `at`. */
  function DataAt(at: nat, f: Frame): Packet {
    Packet(E.client, E.server, Wrap(1 + at), 1, {Ack, Psh}, f)
  }

  function Opening(): seq<Step> {
    [ClientPolls, ToServer(Packet(E.client, E.server, 0, 0, {Syn}, []), Some(0)), ServerPolls,
     ToClient(Packet(E.server, E.client, 0, 1, {Syn, Ack}, [])), ClientPolls,
     ToServer(Packet(E.client, E.server, 1, 1, {Ack}, []), None)]
  }

  /** One frame sent, delivered and read. */
  function Round(at: nat, f: Frame): seq<Step> {
    [ClientSends(f), ToServer(DataAt(at, f), None), ServerPolls]
  }

  /** How many bytes `k` frames are. */
  function At(k: nat, f: Frame): nat {
    if k == 0 then 0 else At(k - 1, f) + |f|
  }

  lemma {:induction false} AtIsProduct(k: nat, f: Frame)
    ensures At(k, f) == k * |f|
  {
    if k > 0 {
      AtIsProduct(k - 1, f);
    }
  }

  function Rounds(opening: seq<Step>, k: nat, f: Frame): seq<Step> {
    if k == 0 then opening else Rounds(opening, k - 1, f) + Round(At(k - 1, f), f)
  }

  function Copies(k: nat, f: Frame): seq<Frame> {
    if k == 0 then [] else Copies(k - 1, f) + [f]
  }

  function ClientHost(at: nat): Host {
    Host(ClientRole, E.client, map[7 := Path(E.server, 7, Established, Wrap(1 + at), 1, [])], map[E.server := 7], [], [], 1)
  }

  function ServerHost(at: nat): Host {
    var id := PeerIdFor(E.client);
    Host(ServerRole, E.server, map[id := Path(E.client, id, Established, 1, Wrap(1 + at), [])], map[E.client := id], [], [], 1)
  }

  /** Both ends after `k` frames. */
  ghost predicate Reached(n: Net, k: nat, f: Frame) {
    && n.client == ClientHost(At(k, f)) && n.server == ServerHost(At(k, f))
    && n.clientLine == Copies(k, f) && n.atServer == Copies(k, f) && n.serverLine == []
    && (k > 0 ==> DataAt(0, f) in n.fromClient)
  }

  lemma OneMore(steps: seq<Step>, s: Step)
    requires ValidRun(E, 0, steps) && Enabled(Run(E, 0, steps), s)
    ensures ValidRun(E, 0, steps + [s]) && Run(E, 0, steps + [s]) == Next(E, Run(E, 0, steps), s)
  {
    assert (steps + [s])[..|steps|] == steps;
  }

  // ---------------------------------------------------------------- the handshake

  /** The SYN has arrived. */
  lemma Greeted() returns (n: Net)
    ensures ValidRun(E, 0, Opening()[..2]) && Run(E, 0, Opening()[..2]) == n
    ensures n.client == Begin(E, 0).client.(outbox := [])
    ensures var id := PeerIdFor(E.client);
            n.server == Host(ServerRole, E.server, map[id := Path(E.client, id, ServerSynAckSent, 1, 1, [])], map[E.client := id], [],
                             [Packet(E.server, E.client, 0, 1, {Syn, Ack}, [])], 1)
    ensures n.clientLine == [] && n.atServer == [] && n.serverLine == []
  {
    hide Taken, Connected, Accepted, Queued, Advanced;
    var o := Opening();
    assert o[..0] == [] && o[..1] == [] + [o[0]] && o[..2] == o[..1] + [o[1]];
    OneMore([], o[0]);
    OneMore(o[..1], o[1]);
    n := Run(E, 0, o[..2]);
  }

  /** The answer is on its way. */
  lemma HalfOpen() returns (n: Net)
    ensures ValidRun(E, 0, Opening()[..3]) && Run(E, 0, Opening()[..3]) == n
    ensures n.client == Begin(E, 0).client.(outbox := [])
    ensures var id := PeerIdFor(E.client);
            n.server == Host(ServerRole, E.server, map[id := Path(E.client, id, ServerSynAckSent, 1, 1, [])], map[E.client := id], [], [], 1)
    ensures n.clientLine == [] && n.atServer == [] && n.serverLine == []
    ensures Packet(E.server, E.client, 0, 1, {Syn, Ack}, []) in n.fromServer
  {
    hide Run, ValidRun, HandleIncoming;
    var o := Opening();
    n := Greeted();
    assert o[..3] == o[..2] + [o[2]];
    OneMore(o[..2], o[2]);
    n := Run(E, 0, o[..3]);
  }

  /** The client's side is up, its acknowledgement still in the outbox. */
  lemma ClientUp() returns (n: Net)
    ensures ValidRun(E, 0, Opening()[..4]) && Run(E, 0, Opening()[..4]) == n
    ensures n.client == ClientHost(0).(outbox := [Packet(E.client, E.server, 1, 1, {Ack}, [])])
    ensures var id := PeerIdFor(E.client);
            n.server == Host(ServerRole, E.server, map[id := Path(E.client, id, ServerSynAckSent, 1, 1, [])], map[E.client := id], [], [], 1)
    ensures n.clientLine == [] && n.atServer == [] && n.serverLine == []
  {
    hide Run, ValidRun, Welcome, Taken;
    var o := Opening();
    n := HalfOpen();
    assert o[..4] == o[..3] + [o[3]];
    OneMore(o[..3], o[3]);
    n := Run(E, 0, o[..4]);
  }

  lemma Acknowledged(n: Net, f: Frame)
    requires n.client == ClientHost(0).(outbox := [Packet(E.client, E.server, 1, 1, {Ack}, [])])
    requires var id := PeerIdFor(E.client);
             n.server == Host(ServerRole, E.server, map[id := Path(E.client, id, ServerSynAckSent, 1, 1, [])], map[E.client := id], [], [], 1)
    requires n.clientLine == [] && n.atServer == [] && n.serverLine == []
    ensures var ack := Packet(E.client, E.server, 1, 1, {Ack}, []);
            var n1 := Next(E, n, ClientPolls);
            ack in n1.fromClient && Reached(Next(E, n1, ToServer(ack, None)), 0, f)
  {
  }

  lemma Open(f: Frame) returns (n: Net)
    ensures EndsIn(Opening(), n) && Reached(n, 0, f)
  {
    var o := Opening();
    n := ClientUp();
    Acknowledged(n, f);
    TwoMore(o[..4], o[4], o[5]);
    assert o == o[..4] + [o[4], o[5]];
    n := Next(E, Next(E, n, o[4]), o[5]);
  }

  lemma Opened(f: Frame) returns (opening: seq<Step>)
    ensures Arrives(opening, 0, f)
  {
    opening := Opening();
    var n := Open(f);
  }

  lemma TwoMore(steps: seq<Step>, a: Step, b: Step)
    requires ValidRun(E, 0, steps)
    requires var n := Run(E, 0, steps); Enabled(n, a) && Enabled(Next(E, n, a), b)
    ensures ValidRun(E, 0, steps + [a, b]) && Run(E, 0, steps + [a, b]) == Next(E, Next(E, Run(E, 0, steps), a), b)
  {
    OneMore(steps, a);
    OneMore(steps + [a], b);
    assert steps + [a, b] == steps + [a] + [b];
  }

  // ---------------------------------------------------------------- rounds

  lemma SentRound(n: Net, k: nat, f: Frame)
    requires Reached(n, k, f) && f != [] && |f| <= MAX_WIRE_PAYLOAD
    ensures var n1 := Next(E, n, ClientSends(f));
            && n1.client == ClientHost(At(k + 1, f)) && n1.server == n.server
            && n1.clientLine == Copies(k + 1, f) && n1.atServer == n.atServer && n1.serverLine == []
            && DataAt(At(k, f), f) in n1.fromClient && DataAt(0, f) in n1.fromClient
  {
    WrapAdd(1 + At(k, f), |f|);
  }

  lemma DeliveredRound(n: Net, at: nat, f: Frame)
    requires n.server == ServerHost(at) && f != []
    ensures var n1 := Next(E, Next(E, n, ToServer(DataAt(at, f), None)), ServerPolls);
            && n1.server == ServerHost(at + |f|) && n1.atServer == n.atServer + [f]
            && n1.client == n.client && n1.clientLine == n.clientLine && n1.serverLine == n.serverLine && n1.fromClient == n.fromClient
  {
    hide Welcome, Connected, Accepted;
    WrapAdd(1 + at, |f|);
    var id := PeerIdFor(E.client);
    var h := HandleIncoming(n.server, DataAt(at, f), None);
    assert h == Taken(n.server, id, n.server.paths[id], DataAt(at, f));
    assert h.incoming == [Inbound(id, f)];
  }

  lemma ThreeMore(steps: seq<Step>, a: Step, b: Step, c: Step)
    requires ValidRun(E, 0, steps)
    requires var n := Run(E, 0, steps);
             Enabled(n, a) && Enabled(Next(E, n, a), b) && Enabled(Next(E, Next(E, n, a), b), c)
    ensures ValidRun(E, 0, steps + [a, b, c])
    ensures Run(E, 0, steps + [a, b, c]) == Next(E, Next(E, Next(E, Run(E, 0, steps), a), b), c)
  {
    OneMore(steps, a);
    OneMore(steps + [a], b);
    OneMore(steps + [a] + [b], c);
    assert steps + [a, b, c] == steps + [a] + [b] + [c];
  }

  lemma RoundReaches(n: Net, k: nat, f: Frame)
    requires Reached(n, k, f) && f != [] && |f| <= MAX_WIRE_PAYLOAD
    ensures DataAt(At(k, f), f) in Next(E, n, ClientSends(f)).fromClient
    ensures Reached(Next(E, Next(E, Next(E, n, ClientSends(f)), ToServer(DataAt(At(k, f), f), None)), ServerPolls), k + 1, f)
  {
    hide Next, ClientHost, ServerHost, Wrap;
    SentRound(n, k, f);
    DeliveredRound(Next(E, n, ClientSends(f)), At(k, f), f);
  }

  /** A valid run that ends in this state. */
  ghost predicate EndsIn(steps: seq<Step>, n: Net) {
    ValidRun(E, 0, steps) && Run(E, 0, steps) == n
  }

  lemma RoundEnds(steps: seq<Step>, n: Net, k: nat, f: Frame) returns (n1: Net)
    requires EndsIn(steps, n) && Reached(n, k, f) && f != [] && |f| <= MAX_WIRE_PAYLOAD
    ensures EndsIn(steps + Round(At(k, f), f), n1) && Reached(n1, k + 1, f)
  {
    var data := DataAt(At(k, f), f);
    RoundReaches(n, k, f);
    ThreeMore(steps, ClientSends(f), ToServer(data, None), ServerPolls);
    n1 := Next(E, Next(E, Next(E, n, ClientSends(f)), ToServer(data, None)), ServerPolls);
  }

  ghost predicate Arrives(steps: seq<Step>, k: nat, f: Frame) {
    exists n :: EndsIn(steps, n) && Reached(n, k, f)
  }

  lemma RoundArrives(steps: seq<Step>, k: nat, f: Frame)
    requires Arrives(steps, k, f) && f != [] && |f| <= MAX_WIRE_PAYLOAD
    ensures Arrives(steps + Round(At(k, f), f), k + 1, f)
  {
    var n :| EndsIn(steps, n) && Reached(n, k, f);
    var n1 := RoundEnds(steps, n, k, f);
  }

  lemma {:induction false} ManyRounds(opening: seq<Step>, k: nat, f: Frame)
    requires Arrives(opening, 0, f) && f != [] && |f| <= MAX_WIRE_PAYLOAD
    ensures Arrives(Rounds(opening, k, f), k, f)
  {
    hide EndsIn, Reached, Round;
    if k > 0 {
      ManyRounds(opening, k - 1, f);
      RoundArrives(Rounds(opening, k - 1, f), k - 1, f);
    }
  }

  lemma {:induction false} CopiesTotal(k: nat, f: Frame)
    ensures |Copies(k, f)| == k && Total(Copies(k, f)) == k * |f|
  {
    if k > 0 {
      CopiesTotal(k - 1, f);
      TotalExtends(Copies(k - 1, f), f);
    }
  }

  /** After exactly 2^32 bytes the first packet, repeated, is taken again. */
  lemma WrapsAround(opening: seq<Step>, m: nat, f: Frame)
    requires Arrives(opening, 0, f)
    requires f != [] && |f| <= MAX_WIRE_PAYLOAD && m * |f| == WORD
    ensures var steps := Rounds(opening, m, f) + [ToServer(DataAt(0, f), None)];
            var n := Run(E, 0, steps);
            && ValidRun(E, 0, steps) && Total(n.clientLine) == WORD && n.serverLine == []
            && !(n.atServer <= n.clientLine)
  {
    var steps := Rounds(opening, m, f);
    ManyRounds(opening, m, f);
    var n :| EndsIn(steps, n) && Reached(n, m, f);
    OneMore(steps, ToServer(DataAt(0, f), None));
    CopiesTotal(m, f);
    AtIsProduct(m, f);
    WrapIsRemainder(1 + WORD);
    WrapIsRemainder(1);
    assert ServerHost(WORD) == ServerHost(0);
    DeliveredRound(n, 0, f);
    var n1 := Next(E, n, ToServer(DataAt(0, f), None));
    assert n1.atServer == Next(E, n1, ServerPolls).atServer;
    assert |n1.atServer| == m + 1;
  }

  ghost predicate Ordered(e: Setup, isn: nat, steps: seq<Step>) {
    Run(e, isn, steps).atServer <= Run(e, isn, steps).clientLine && Run(e, isn, steps).atClient <= Run(e, isn, steps).serverLine
  }

  ghost predicate AtMost(e: Setup, isn: nat, steps: seq<Step>, bytes: nat) {
    Total(Run(e, isn, steps).clientLine) <= bytes && Total(Run(e, isn, steps).serverLine) <= bytes
  }

  /** A bound on the bytes sent each way makes delivery ordered in every run exactly
      when it is below 2^32. */
  lemma OrderedExactly(bytes: nat)
    ensures (forall e: Setup, isn: nat, steps: seq<Step> ::
               ValidRun(e, isn, steps) && AtMost(e, isn, steps, bytes) ==> Ordered(e, isn, steps)) <==> bytes < WORD
  {
    if bytes < WORD {
      forall e: Setup, isn: nat, steps: seq<Step> | ValidRun(e, isn, steps) && AtMost(e, isn, steps, bytes)
        ensures Ordered(e, isn, steps)
      {
        OrderedDelivery(e, isn, steps);
      }
    } else {
      var f: Frame := seq(32768, _ => 0);
      var opening := Opened(f);
      var m := WORD / 32768;
      var steps := Rounds(opening, m, f) + [ToServer(DataAt(0, f), None)];
      WrapsAround(opening, m, f);
      assert ValidRun(E, 0, steps) && AtMost(E, 0, steps, bytes) && !Ordered(E, 0, steps);
    }
  }
}
