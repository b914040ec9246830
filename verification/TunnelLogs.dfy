/** What the history functions collect from a reply. */
module TunnelLogs {
  import opened Messages
  import opened Sessions
  import opened Tunnel
  import C = ClientSpec
  import S = ServerSpec
  import SI = ServerInvariants

  lemma {:induction false} SentInRecords(actions: seq<Action>, a: Action)
    requires a in actions && a.SendFrame? && a.frame.RecordMsg?
    ensures a.frame in Records(actions)
  {
    if actions[0] != a {
      SentInRecords(actions[1..], a);
    }
  }

  lemma {:induction false} RecordsAreSent(actions: seq<Action>, f: Frame)
    requires f in Records(actions)
    ensures f.RecordMsg? && BodyAtom(f.body) in SentAtoms(actions)
  {
    if actions[0].SendFrame? && actions[0].frame.RecordMsg? && actions[0].frame == f {
      assert BodyAtom(f.body) in Atoms(actions[0].frame);
    } else {
      RecordsAreSent(actions[1..], f);
      assert forall a :: a in actions[1..] ==> a in actions;
    }
  }

  /** A sealed body that was sent belongs to one of the records. */
  lemma SentBody(actions: seq<Action>, b: Body) returns (f: Frame)
    requires BodyAtom(b) in SentAtoms(actions)
    ensures f in Records(actions) && f.RecordMsg? && f.body == b
  {
    var a :| a in actions && a.SendFrame? && BodyAtom(b) in Atoms(a.frame);
    SentInRecords(actions, a);
    f := a.frame;
  }

  lemma {:induction false} CarriedFate(fates: seq<C.Fate>, b: Body) returns (i: nat)
    requires b in CarriedBy(fates)
    ensures i < |fates| && fates[i].Carried? && fates[i].frame.RecordMsg? && fates[i].frame.body == b
    ensures CarriedBy(fates)[b] == Carrier(fates[i].conv, fates[i].datagram)
  {
    if fates[0].Carried? && fates[0].frame.RecordMsg? && fates[0].frame.body == b {
      i := 0;
    } else {
      i := CarriedFate(fates[1..], b);
      i := i + 1;
    }
  }

  lemma {:induction false} FateCarried(fates: seq<C.Fate>, i: nat)
    requires i < |fates| && fates[i].Carried? && fates[i].frame.RecordMsg?
    ensures fates[i].frame.body in CarriedBy(fates)
  {
    if i > 0 {
      FateCarried(fates[1..], i - 1);
    }
  }

  lemma {:induction false} DownAction(actions: seq<Action>, body: Body, d: Down)
    requires d in DownsOf(actions, body)
    ensures DeliverToClient(d.localPeer, d.payload) in actions && d.body == body
  {
    if !(actions[0].DeliverToClient? && d == Down(actions[0].localPeer, actions[0].payload, body)) {
      DownAction(actions[1..], body, d);
    }
  }

  lemma {:induction false} UpAction(actions: seq<Action>, body: Body, u: Up) returns (sid: SessionId)
    requires u in UpsOf(actions, body)
    ensures DeliverToUpstream(sid, u.conv, u.payload) in actions && u.body == body
  {
    if actions[0].DeliverToUpstream? && u == Up(actions[0].conv, actions[0].payload, body) {
      sid := actions[0].sid;
    } else {
      sid := UpAction(actions[1..], body, u);
    }
  }

  lemma {:induction false} ReportAction(actions: seq<Action>, key: SessionKey, r: Reported) returns (a: Action)
    requires r in ReportsOf(actions, key)
    ensures a in actions && a.SessionEstablished? && r == Reported(key, Terms(a.sid, a.suite, a.resumed))
  {
    if actions[0].SessionEstablished? && r == Reported(key, Terms(actions[0].sid, actions[0].suite, actions[0].resumed)) {
      a := actions[0];
    } else {
      a := ReportAction(actions[1..], key, r);
    }
  }

  lemma {:induction false} AcceptedAction(s1: S.Server, actions: seq<Action>, key: SessionKey) returns (a: Action)
    requires key in AcceptedBy(s1, actions)
    ensures a in actions && a.SessionEstablished? && a.sid in s1.sessions && SI.KeyOf(s1.sessions[a.sid]) == key
    ensures AcceptedBy(s1, actions)[key] == Terms(a.sid, a.suite, a.resumed)
  {
    var x := actions[0];
    if x.SessionEstablished? && x.sid in s1.sessions && SI.KeyOf(s1.sessions[x.sid]) == key {
      a := x;
    } else {
      a := AcceptedAction(s1, actions[1..], key);
    }
  }
}
