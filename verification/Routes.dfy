/** The host's table of upstream sockets, driven by the server's actions. */
module Routes {
  import opened Base
  import opened Messages

  type Socket = nat
  type Key = (SessionId, ConvId)

  /** The receiving task of a route: the socket it reads, and whether it still runs.
      A task that has ended keeps its entry. */
  datatype Task = Task(socket: Socket, running: bool)

  /** `routes` and `route_tasks`. */
  datatype Table = Table(routes: map<Key, Socket>, tasks: map<Key, Task>)

  function Ensure(t: Table, key: Key, socket: Socket): Table {
    if key in t.routes then t else Table(t.routes[key := socket], t.tasks[key := Task(socket, true)])
  }

  /** The receiver of a route returns: nothing is removed. */
  function EndTask(t: Table, key: Key): Table {
    if key in t.tasks then t.(tasks := t.tasks[key := t.tasks[key].(running := false)]) else t
  }

  function RemoveRoute(t: Table, key: Key): Table {
    Table(t.routes - {key}, t.tasks - {key})
  }

  /** The conversations routed under a session. */
  function RoutedUnder(t: Table, sid: SessionId): set<ConvId> {
    set key | key in t.routes && key.0 == sid :: key.1
  }

  function RemoveSession(t: Table, sid: SessionId): Table {
    var gone := set key | key in t.routes && key.0 == sid;
    Table(t.routes - gone, t.tasks - gone)
  }

  /** Moves one conversation's route and restarts its task. */
  function MoveRoute(t: Table, from: SessionId, to: SessionId, conv: ConvId): Table
    requires (from, conv) in t.routes
  {
    var socket := t.routes[(from, conv)];
    Table((t.routes - {(from, conv)})[(to, conv) := socket], (t.tasks - {(from, conv)})[(to, conv) := Task(socket, true)])
  }

  function MoveAll(t: Table, from: SessionId, to: SessionId, convs: seq<ConvId>): Table
    decreases |convs|
  {
    if convs == [] then t
    else if (from, convs[0]) in t.routes then MoveAll(MoveRoute(t, from, to, convs[0]), from, to, convs[1..])
    else MoveAll(t, from, to, convs[1..])
  }

  /** What the platform supplies: a new socket (`None` when binding fails), the
      order in which the routes of a session are visited, and whether sending on
      the socket succeeds. */
  datatype HostDraws = HostDraws(socket: Option<Socket>, order: seq<ConvId>, sent: bool)

  datatype Executed = Executed(table: Table, ok: bool)

  function ExecuteOne(t: Table, a: Action, d: HostDraws): Executed {
    match a
    case DeliverToUpstream(sid, conv, _) =>
      if (sid, conv) in t.routes then Executed(t, d.sent)
      else if d.socket.None? then Executed(t, false)
      else Executed(Ensure(t, (sid, conv), d.socket.value), d.sent)
    case SessionResumed(_, oldSid, newSid) => Executed(MoveAll(t, oldSid, newSid, d.order), true)
    case SessionRecoveryExpired(sid) => Executed(RemoveSession(t, sid), true)
    case ConversationClosed(session, conv) =>
      Executed(if session.Some? then RemoveRoute(t, (session.value, conv)) else t, true)
    case _ => Executed(t, true)
  }

  /** The actions of one event, in order; a socket that can not be bound or written
      ends the service. */
  function Execute(t: Table, actions: seq<Action>, draws: seq<HostDraws>): Executed
    requires |draws| == |actions|
    decreases |actions|
  {
    if actions == [] then Executed(t, true)
    else
      var first := ExecuteOne(t, actions[0], draws[0]);
      if !first.ok then first else Execute(first.table, actions[1..], draws[1..])
  }

  // ---------------------------------------------------------------- invariants

  /** Every route has a task entry, for that route's socket, and no socket serves
      two conversations. */
  ghost predicate ValidTable(t: Table) {
    TasksMatch(t) && forall a, b :: OneSocketEach(t, a, b)
  }

  ghost predicate TasksMatch(t: Table) {
    t.tasks.Keys == t.routes.Keys && forall k :: k in t.routes ==> t.tasks[k].socket == t.routes[k]
  }

  /** Tasks of old routes are as they were, and tasks of new routes run. */
  ghost predicate TasksStay(t: Table, t1: Table) {
    forall k :: k in t1.tasks ==> if k in t.tasks then t1.tasks[k] == t.tasks[k] else t1.tasks[k].running
  }

  ghost predicate OneSocketEach(t: Table, a: Key, b: Key) {
    a in t.routes && b in t.routes && t.routes[a] == t.routes[b] ==> a == b
  }

  /** A drawn socket is not in use. */
  ghost predicate FreshSocket(t: Table, d: HostDraws) {
    d.socket.Some? ==> forall k :: k in t.routes ==> t.routes[k] != d.socket.value
  }

  // ---------------------------------------------------------------- single steps

  lemma EnsureValid(t: Table, key: Key, d: HostDraws)
    requires ValidTable(t) && FreshSocket(t, d) && d.socket.Some?
    ensures ValidTable(Ensure(t, key, d.socket.value))
  {
    var t1 := Ensure(t, key, d.socket.value);
    forall a, b
      ensures OneSocketEach(t1, a, b)
    {
      assert OneSocketEach(t, a, b);
    }
  }

  lemma FewerValid(t: Table, t1: Table)
    requires ValidTable(t) && TasksMatch(t1) && forall k :: k in t1.routes ==> k in t.routes && t1.routes[k] == t.routes[k]
    ensures ValidTable(t1)
  {
    forall a, b
      ensures OneSocketEach(t1, a, b)
    {
      assert OneSocketEach(t, a, b);
    }
  }

  lemma MoveRouteValid(t: Table, from: SessionId, to: SessionId, conv: ConvId)
    requires ValidTable(t) && (from, conv) in t.routes && (to, conv) !in t.routes && from != to
    ensures ValidTable(MoveRoute(t, from, to, conv))
  {
    var t1 := MoveRoute(t, from, to, conv);
    forall a, b
      ensures OneSocketEach(t1, a, b)
    {
      assert OneSocketEach(t, a, b);
      assert OneSocketEach(t, a, (from, conv)) && OneSocketEach(t, (from, conv), b);
    }
  }

  /** The routes of `convs` have moved from one session to another, each with its
      socket, and nothing else has changed. */
  ghost predicate Moved(t: Table, t1: Table, from: SessionId, to: SessionId, convs: seq<ConvId>) {
    && (forall c :: c in convs ==>
          (from, c) in t.routes && (to, c) in t1.routes && t1.routes[(to, c)] == t.routes[(from, c)])
    && (forall k :: k in t1.routes ==> (k.0 == to && k.1 in convs) || (k in t.routes && t1.routes[k] == t.routes[k]))
    && (forall k :: k in t.routes ==> (k.0 == from && k.1 in convs) || (k in t1.routes && t1.routes[k] == t.routes[k]))
    && (forall c :: c in convs ==> (from, c) !in t1.routes)
  }

  /** One route moved, and then the rest. */
  lemma MovedOneMore(t: Table, t2: Table, from: SessionId, to: SessionId, convs: seq<ConvId>)
    requires convs != [] && from != to && (from, convs[0]) in t.routes && (to, convs[0]) !in t.routes && convs[0] !in convs[1..]
    requires Moved(MoveRoute(t, from, to, convs[0]), t2, from, to, convs[1..])
    ensures Moved(t, t2, from, to, convs)
  {
    var t1 := MoveRoute(t, from, to, convs[0]);
    assert forall c :: c in convs <==> c == convs[0] || c in convs[1..];
    assert (to, convs[0]) in t1.routes && (from, convs[0]) !in t1.routes;
  }

  lemma TasksStayOneMore(t: Table, t2: Table, from: SessionId, to: SessionId, conv: ConvId)
    requires from != to && (from, conv) in t.routes && (to, conv) !in t.tasks && TasksStay(MoveRoute(t, from, to, conv), t2)
    requires (from, conv) !in t2.tasks
    ensures TasksStay(t, t2)
  {
  }

  lemma {:induction false} MoveAllMoves(t: Table, from: SessionId, to: SessionId, convs: seq<ConvId>)
    requires ValidTable(t) && from != to
    requires forall i, j :: 0 <= i < j < |convs| ==> convs[i] != convs[j]
    requires forall c :: c in convs ==> (from, c) in t.routes && (to, c) !in t.routes
    ensures ValidTable(MoveAll(t, from, to, convs)) && Moved(t, MoveAll(t, from, to, convs), from, to, convs)
    ensures TasksStay(t, MoveAll(t, from, to, convs))
    decreases |convs|
  {
    if convs != [] {
      MoveRouteValid(t, from, to, convs[0]);
      MovedRest(t, from, to, convs);
      MoveAllMoves(MoveRoute(t, from, to, convs[0]), from, to, convs[1..]);
      MoveAllSteps(t, from, to, convs);
    }
  }

  lemma MovedRest(t: Table, from: SessionId, to: SessionId, convs: seq<ConvId>)
    requires from != to && convs != [] && (forall i, j :: 0 <= i < j < |convs| ==> convs[i] != convs[j])
    requires forall c :: c in convs ==> (from, c) in t.routes && (to, c) !in t.routes
    ensures var t1 := MoveRoute(t, from, to, convs[0]);
            convs[0] !in convs[1..] && forall c :: c in convs[1..] ==> (from, c) in t1.routes && (to, c) !in t1.routes
  {
  }

  lemma MoveAllSteps(t: Table, from: SessionId, to: SessionId, convs: seq<ConvId>)
    requires from != to && convs != [] && convs[0] !in convs[1..] && (from, convs[0]) in t.routes && (to, convs[0]) !in t.routes
    requires t.tasks.Keys == t.routes.Keys
    requires var t1 := MoveRoute(t, from, to, convs[0]); var t2 := MoveAll(t1, from, to, convs[1..]);
             Moved(t1, t2, from, to, convs[1..]) && TasksStay(t1, t2) && t2.tasks.Keys == t2.routes.Keys
    ensures Moved(t, MoveAll(t, from, to, convs), from, to, convs) && TasksStay(t, MoveAll(t, from, to, convs))
  {
    hide Moved, TasksStay;
    var t2 := MoveAll(MoveRoute(t, from, to, convs[0]), from, to, convs[1..]);
    MovedOneMore(t, t2, from, to, convs);
    MovedFrom(t, t2, from, to, convs);
    TasksStayOneMore(t, t2, from, to, convs[0]);
  }

  lemma MovedFrom(t: Table, t2: Table, from: SessionId, to: SessionId, convs: seq<ConvId>)
    requires Moved(t, t2, from, to, convs) && convs != []
    ensures (from, convs[0]) !in t2.routes
  {
  }

  // ---------------------------------------------------------------- sequences

  lemma {:induction false} ExecuteConcat(t: Table, a: seq<Action>, b: seq<Action>, da: seq<HostDraws>, db: seq<HostDraws>)
    requires |da| == |a| && |db| == |b|
    ensures var x := Execute(t, a, da);
            Execute(t, a + b, da + db) == if x.ok then Execute(x.table, b, db) else x
    decreases |a|
  {
    if a == [] {
      assert a + b == b && da + db == db;
    } else {
      assert (a + b)[1..] == a[1..] + b && (da + db)[1..] == da[1..] + db;
      ExecuteConcat(ExecuteOne(t, a[0], da[0]).table, a[1..], b, da[1..], db);
    }
  }

  predicate Neutral(a: Action) {
    !a.DeliverToUpstream? && !a.SessionResumed? && !a.SessionRecoveryExpired? && !a.ConversationClosed?
  }

  lemma {:induction false} ExecuteNeutral(t: Table, actions: seq<Action>, draws: seq<HostDraws>)
    requires |draws| == |actions| && forall a :: a in actions ==> Neutral(a)
    ensures Execute(t, actions, draws) == Executed(t, true)
    decreases |actions|
  {
    if actions != [] {
      assert Neutral(actions[0]);
      ExecuteNeutral(t, actions[1..], draws[1..]);
    }
  }

  predicate TakesOut(a: Action, k: Key) {
    a == ConversationClosed(Some(k.0), k.1) || a == SessionRecoveryExpired(k.0)
  }

  /** Some action of the reply takes this route out. */
  ghost predicate TakenOut(actions: seq<Action>, k: Key) {
    exists a :: a in actions && TakesOut(a, k)
  }

  lemma TakenOutStep(actions: seq<Action>, k: Key)
    requires actions != []
    ensures TakenOut(actions, k) <==> TakenOut(actions[1..], k) || TakesOut(actions[0], k)
  {
    assert forall a :: a in actions <==> a == actions[0] || a in actions[1..];
  }

  /** Every route of the new table is an old one that was not taken out, and the
      others have gone. */
  ghost predicate OnlyTaken(t: Table, t1: Table, actions: seq<Action>) {
    && (forall k :: k in t1.routes ==> k in t.routes && t1.routes[k] == t.routes[k] && !TakenOut(actions, k))
    && (forall k :: k in t.routes && !TakenOut(actions, k) ==> k in t1.routes)
    && (forall k :: k in t1.tasks ==> k in t.tasks && t1.tasks[k] == t.tasks[k])
  }

  lemma RemovalStep(t: Table, a: Action, d: HostDraws)
    requires ValidTable(t) && !a.DeliverToUpstream? && !a.SessionResumed?
    ensures var x := ExecuteOne(t, a, d);
            && x.ok && ValidTable(x.table)
            && (forall k :: k in x.table.routes <==> k in t.routes && !TakesOut(a, k))
            && (forall k :: k in x.table.routes ==> x.table.routes[k] == t.routes[k] && x.table.tasks[k] == t.tasks[k])
  {
    FewerValid(t, ExecuteOne(t, a, d).table);
  }

  lemma {:induction false} ExecuteRemovals(t: Table, actions: seq<Action>, draws: seq<HostDraws>)
    requires |draws| == |actions| && ValidTable(t)
    requires forall a :: a in actions ==> !a.DeliverToUpstream? && !a.SessionResumed?
    ensures var x := Execute(t, actions, draws);
            x.ok && ValidTable(x.table) && OnlyTaken(t, x.table, actions)
    decreases |actions|
  {
    hide ExecuteOne, OneSocketEach;
    if actions != [] {
      var first := ExecuteOne(t, actions[0], draws[0]);
      RemovalStep(t, actions[0], draws[0]);
      ExecuteRemovals(first.table, actions[1..], draws[1..]);
      forall k
        ensures TakenOut(actions, k) <==> TakenOut(actions[1..], k) || TakesOut(actions[0], k)
      {
        TakenOutStep(actions, k);
      }
    }
  }
}
