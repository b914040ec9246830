/** What became of every datagram of a run, and in which order. */
module TunnelOrder {
  import opened Base
  import opened Messages
  import opened Sessions
  import opened Tunnel
  import opened TunnelInvariant
  import opened TunnelLogs
  import C = ClientSpec
  import CI = ClientInvariants
  import CN = ClientSending
  import CS = ClientSteps
  import CC = ClientConservation

  /** Accepted datagrams are settled first in, first out; the rest still waits. */
  ghost predicate InLine(h: History, c: C.Client) {
    && h.line == CC.Settled(h.fates) + CC.Waiting(c.queue)
    && (forall d :: d in h.line ==> d.serial in h.serials)
    && (forall i, j :: 0 <= i < j < |h.line| ==> h.line[i].serial != h.line[j].serial)
  }

  ghost predicate FateKnown(h: History, f: C.Fate) {
    f.Carried? ==> f.frame.RecordMsg? && f.frame.body.Sealed? && f.frame.body.header == f.frame.header && BodyAtom(f.frame.body) in h.known
  }

  /** Of two datagrams carried under one key the earlier has the lower number. */
  ghost predicate Follows(f: C.Fate, g: C.Fate) {
    (&& f.Carried? && g.Carried? && f.frame.RecordMsg? && g.frame.RecordMsg?
     && f.frame.body.Sealed? && g.frame.body.Sealed? && f.frame.body.key == g.frame.body.key) ==>
      f.frame.header.number < g.frame.header.number
  }

  /** The record is the one that a datagram went into. */
  ghost predicate CarriedOnce(h: History, b: Body) {
    b in h.carried ==>
      exists i :: && 0 <= i < |h.fates| && h.fates[i].Carried? && h.fates[i].frame.RecordMsg? && h.fates[i].frame.body == b
                  && h.carried[b] == Carrier(h.fates[i].conv, h.fates[i].datagram)
  }

  ghost predicate FatesOrdered(fates: seq<C.Fate>) {
    forall i, j :: 0 <= i < j < |fates| ==> Follows(fates[i], fates[j])
  }

  ghost predicate OrderInv(h: History, c: C.Client) {
    && InLine(h, c)
    && (forall f :: f in h.fates ==> FateKnown(h, f))
    && FatesOrdered(h.fates)
    && (forall b :: CarriedOnce(h, b))
  }

  // ---------------------------------------------------------------- the line

  lemma TurnedAwayKeeps(env: C.ClientEnv, c: C.Client, d: C.Datagram, now: Time, draw: Option<ConvId>, draws: C.ClientDraws)
    requires C.HandleLocal(env, c, d, now, draw, draws).fates == [C.Lost(d, ReconnectQueueFull)]
    ensures C.HandleLocal(env, c, d, now, draw, draws).client.queue == c.queue
  {
  }

  lemma TurnedAwayStep(env: C.ClientEnv, c: C.Client, event: C.ClientEvent, now: Time, draws: C.ClientDraws)
    requires env.cfg.sessionTimeout > 0 && TurnedAway(event, C.ClientStep(env, c, event, now, draws))
    ensures C.ClientStep(env, c, event, now, draws).client.queue == c.queue
  {
    TurnedAwayKeeps(env, c, event.datagram, now, C.DrawAt(draws.convs), draws);
  }

  lemma InLineKept(env: C.ClientEnv, h: History, h1: History, c0: C.Client, o: C.ClientOutcome, event: C.ClientEvent)
    requires h1 == AfterClient(h, event, o) && InLine(h, c0)
    requires CC.Conserves(env, c0, event, o) && (TurnedAway(event, o) ==> o.client.queue == c0.queue)
    requires event.ClientDatagram? ==> event.datagram.serial !in h.serials
    ensures InLine(h1, o.client)
  {
    hide CC.Settled, CC.Waiting;
    if !TurnedAway(event, o) {
      CC.SettledConcat(h.fates, o.fates);
      var past, now := CC.Settled(h.fates), CC.Settled(o.fates);
      var was, still, arrived := CC.Waiting(c0.queue), CC.Waiting(o.client.queue), CC.Arrived(event, o.reply);
      assert past + was + arrived == past + (was + arrived);
      assert past + (now + still) == past + now + still;
    }
  }

  // ---------------------------------------------------------------- numbers

  lemma {:induction false} DataAmongRecords(actions: seq<Action>, f: Frame)
    requires f in CC.DataFrames(actions)
    ensures f in Records(actions)
  {
    if !(actions[0].SendFrame? && actions[0].frame.RecordMsg? && actions[0].frame == f) {
      DataAmongRecords(actions[1..], f);
    }
  }

  lemma AscendingTail(first: Frame, rest: seq<Frame>)
    requires Ascending([first] + rest)
    ensures first.RecordMsg? && Ascending(rest)
    ensures forall f :: f in rest ==> f.RecordMsg? && first.header.number < f.header.number
  {
    var all := [first] + rest;
    assert all[0] == first;
    assert forall k :: 0 <= k < |rest| ==> rest[k] == all[k + 1];
  }

  lemma AscendingCons(first: Frame, rest: seq<Frame>)
    requires first.RecordMsg? && Ascending(rest)
    requires forall f :: f in rest ==> f.RecordMsg? && first.header.number < f.header.number
    ensures Ascending([first] + rest)
  {
  }

  lemma {:induction false} DataAscending(actions: seq<Action>)
    requires Ascending(Records(actions))
    ensures Ascending(CC.DataFrames(actions))
  {
    if actions != [] {
      var head, rest, data := actions[0], Records(actions[1..]), CC.DataFrames(actions[1..]);
      if head.SendFrame? && head.frame.RecordMsg? {
        AscendingTail(head.frame, rest);
        DataAscending(actions[1..]);
        forall f | f in data
          ensures f in rest
        {
          DataAmongRecords(actions[1..], f);
        }
        AscendingCons(head.frame, data);
      } else {
        assert Records(actions) == rest;
        DataAscending(actions[1..]);
        assert CC.DataFrames(actions) == data;
      }
    }
  }

  lemma {:induction false} CarriedAmong(fates: seq<C.Fate>, i: nat)
    requires i < |fates| && fates[i].Carried?
    ensures fates[i].frame in CC.CarriedFrames(fates)
  {
    if i > 0 {
      CarriedAmong(fates[1..], i - 1);
    }
  }

  lemma {:induction false} CarriedAscending(fates: seq<C.Fate>, i: nat, j: nat)
    requires Ascending(CC.CarriedFrames(fates)) && i < j < |fates| && fates[i].Carried? && fates[j].Carried?
    ensures fates[i].frame.RecordMsg? && fates[j].frame.RecordMsg?
    ensures fates[i].frame.header.number < fates[j].frame.header.number
  {
    var rest := CC.CarriedFrames(fates[1..]);
    if fates[0].Carried? {
      AscendingTail(fates[0].frame, rest);
    } else {
      assert CC.CarriedFrames(fates) == rest;
    }
    if i > 0 {
      CarriedAscending(fates[1..], i - 1, j - 1);
    } else {
      CarriedAmong(fates[1..], j - 1);
    }
  }

  lemma NewFatesOrdered(o: C.ClientOutcome)
    requires CC.Reported(o) && (o.reply.Ok? ==> Ascending(Records(o.reply.actions)))
    ensures FatesOrdered(o.fates)
  {
    if o.reply.Ok? {
      DataAscending(o.reply.actions);
      forall i, j | 0 <= i < j < |o.fates|
        ensures Follows(o.fates[i], o.fates[j])
      {
        if o.fates[i].Carried? && o.fates[j].Carried? {
          CarriedAscending(o.fates, i, j);
        }
      }
    }
  }

  /** A datagram carried now comes after all carried before under its key. */
  lemma OldBeforeNew(h: History, c0: C.Client, o: C.ClientOutcome, f: C.Fate, i: nat)
    requires CS.RecordsSound(c0, o.client, CN.SentRecords(o.reply), o.fates) && CS.SessionEvolves(c0, o.client)
    requires c0.session.Some? ==> SessionLink(h, c0.session.value)
    requires FateKnown(h, f) && i < |o.fates|
    ensures Follows(f, o.fates[i])
  {
    if o.fates[i].Carried? {
      assert CI.FateSound(o.client, o.fates[i], CN.SentRecords(o.reply));
      assert CI.Labelled(o.client, c0.session.value.sealer.next, o.client.session.value.sealer.next, o.fates[i].frame, o.fates);
    }
  }

  lemma FatesOrderedKept(h: History, h1: History, c0: C.Client, o: C.ClientOutcome, event: C.ClientEvent)
    requires h1 == AfterClient(h, event, o) && FatesOrdered(h.fates)
    requires CS.RecordsSound(c0, o.client, CN.SentRecords(o.reply), o.fates) && CS.SessionEvolves(c0, o.client)
    requires c0.session.Some? ==> SessionLink(h, c0.session.value)
    requires CC.Reported(o) && (forall f :: f in h.fates ==> FateKnown(h, f))
    ensures FatesOrdered(h1.fates)
  {
    NewFatesOrdered(o);
    forall i, j | 0 <= i < j < |h1.fates|
      ensures Follows(h1.fates[i], h1.fates[j])
    {
      if i < |h.fates| <= j {
        assert h.fates[i] in h.fates;
        OldBeforeNew(h, c0, o, h.fates[i], j - |h.fates|);
      } else if i >= |h.fates| {
        assert Follows(o.fates[i - |h.fates|], o.fates[j - |h.fates|]);
      } else {
        assert Follows(h.fates[i], h.fates[j]);
      }
    }
  }

  lemma FatesKnownKept(h: History, h1: History, c0: C.Client, o: C.ClientOutcome, event: C.ClientEvent)
    requires h1 == AfterClient(h, event, o) && (forall f :: f in h.fates ==> FateKnown(h, f))
    requires CS.RecordsSound(c0, o.client, CN.SentRecords(o.reply), o.fates)
    ensures forall f :: f in h1.fates ==> FateKnown(h1, f)
  {
    forall f | f in h1.fates
      ensures FateKnown(h1, f)
    {
      if f in h.fates {
        assert FateKnown(h, f);
      } else if f.Carried? {
        var i :| 0 <= i < |o.fates| && o.fates[i] == f;
        assert CI.FateSound(o.client, f, CN.SentRecords(o.reply));
        assert CI.Labelled(o.client, c0.session.value.sealer.next, o.client.session.value.sealer.next, f.frame, o.fates);
        RecordsAreSent(ActionsOf(o.reply), f.frame);
      }
    }
  }

  lemma CarriedOnceKept(h: History, h1: History, o: C.ClientOutcome, event: C.ClientEvent)
    requires h1 == AfterClient(h, event, o) && (forall b :: CarriedOnce(h, b)) && SubMap(h.carried, h1.carried)
    ensures forall b :: CarriedOnce(h1, b)
  {
    forall b
      ensures CarriedOnce(h1, b)
    {
      if b in h.carried {
        assert CarriedOnce(h, b);
        var i :| && 0 <= i < |h.fates| && h.fates[i].Carried? && h.fates[i].frame.RecordMsg? && h.fates[i].frame.body == b
                 && h.carried[b] == Carrier(h.fates[i].conv, h.fates[i].datagram);
        assert h1.fates[i] == h.fates[i];
      } else if b in h1.carried {
        var i := CarriedFate(o.fates, b);
        assert !TurnedAway(event, o);
        assert h1.fates[|h.fates| + i] == o.fates[i];
      }
    }
  }

  lemma OrderKept(env: C.ClientEnv, h: History, h1: History, c0: C.Client, o: C.ClientOutcome, event: C.ClientEvent)
    requires h1 == AfterClient(h, event, o) && HistoryGrows(h, h1) && OrderInv(h, c0)
    requires CS.RecordsSound(c0, o.client, CN.SentRecords(o.reply), o.fates) && CS.SessionEvolves(c0, o.client)
    requires c0.session.Some? ==> SessionLink(h, c0.session.value)
    requires CC.Conserves(env, c0, event, o) && CC.Reported(o) && (TurnedAway(event, o) ==> o.client.queue == c0.queue)
    requires event.ClientDatagram? ==> event.datagram.serial !in h.serials
    ensures OrderInv(h1, o.client)
  {
    InLineKept(env, h, h1, c0, o, event);
    FatesKnownKept(h, h1, c0, o, event);
    FatesOrderedKept(h, h1, c0, o, event);
    CarriedOnceKept(h, h1, o, event);
  }

  // ---------------------------------------------------------------- what follows

  lemma {:induction false} SettledAt(fates: seq<C.Fate>, i: nat)
    requires i < |fates|
    ensures |CC.Settled(fates)| == |fates| && CC.Settled(fates)[i] == fates[i].datagram
  {
    if |fates| > 1 {
      SettledAt(fates[1..], if i > 0 then i - 1 else 0);
    }
  }

  /** No datagram goes into two records. */
  lemma SerialsApart(h: History, c: C.Client, b1: Body, b2: Body)
    requires OrderInv(h, c) && b1 in h.carried && b2 in h.carried
    requires h.carried[b1].datagram.serial == h.carried[b2].datagram.serial
    ensures b1 == b2
  {
    assert CarriedOnce(h, b1) && CarriedOnce(h, b2);
    var i :| && 0 <= i < |h.fates| && h.fates[i].Carried? && h.fates[i].frame.RecordMsg? && h.fates[i].frame.body == b1
             && h.carried[b1] == Carrier(h.fates[i].conv, h.fates[i].datagram);
    var j :| && 0 <= j < |h.fates| && h.fates[j].Carried? && h.fates[j].frame.RecordMsg? && h.fates[j].frame.body == b2
             && h.carried[b2] == Carrier(h.fates[j].conv, h.fates[j].datagram);
    SettledAt(h.fates, i);
    SettledAt(h.fates, j);
    assert h.line[i] == h.fates[i].datagram && h.line[j] == h.fates[j].datagram;
  }
}
