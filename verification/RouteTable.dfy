/** The route table as the service keeps it: two maps changed action by action. */
module RouteTable {
  import opened Base
  import opened Messages
  import opened Protocol
  import opened Routes
  import RouteTheorems
  import ServerEngine

  // ---------------------------------------------------------------- the two passes of a migration

  /** First pass: the routes. */
  function MoveRoutes(routes: map<Key, Socket>, from: SessionId, to: SessionId, moved: seq<(ConvId, Socket)>): map<Key, Socket> {
    if moved == [] then routes
    else
      var before := MoveRoutes(routes, from, to, moved[..|moved| - 1]);
      var (conv, socket) := moved[|moved| - 1];
      (before - {(from, conv)})[(to, conv) := socket]
  }

  /** Second pass: the receivers, each started anew. */
  function MoveTasks(tasks: map<Key, Task>, from: SessionId, to: SessionId, moved: seq<(ConvId, Socket)>): map<Key, Task> {
    if moved == [] then tasks
    else
      var before := MoveTasks(tasks, from, to, moved[..|moved| - 1]);
      var (conv, socket) := moved[|moved| - 1];
      (before - {(from, conv)})[(to, conv) := Task(socket, true)]
  }

  /** The pairs that the first pass collects. */
  ghost predicate Collected(t: Table, from: SessionId, moved: seq<(ConvId, Socket)>, order: seq<ConvId>) {
    && |moved| == |order|
    && (forall i :: 0 <= i < |moved| ==>
          moved[i].0 == order[i] && (from, order[i]) in t.routes && moved[i].1 == t.routes[(from, order[i])])
    && (forall i, j :: 0 <= i < j < |order| ==> order[i] != order[j])
  }

  lemma {:induction false} MoveAllLast(t: Table, from: SessionId, to: SessionId, convs: seq<ConvId>, conv: ConvId)
    ensures MoveAll(t, from, to, convs + [conv]) == MoveAll(MoveAll(t, from, to, convs), from, to, [conv])
    decreases |convs|
  {
    if convs == [] {
      assert convs + [conv] == [conv];
    } else {
      assert (convs + [conv])[1..] == convs[1..] + [conv];
      var t1 := if (from, convs[0]) in t.routes then MoveRoute(t, from, to, convs[0]) else t;
      MoveAllLast(t1, from, to, convs[1..], conv);
    }
  }

  lemma {:induction false} MoveAllOthers(t: Table, from: SessionId, to: SessionId, convs: seq<ConvId>, conv: ConvId)
    requires conv !in convs
    ensures var t1 := MoveAll(t, from, to, convs);
            ((from, conv) in t1.routes <==> (from, conv) in t.routes)
            && ((from, conv) in t.routes ==> t1.routes[(from, conv)] == t.routes[(from, conv)])
    decreases |convs|
  {
    if convs != [] {
      var t1 := if (from, convs[0]) in t.routes then MoveRoute(t, from, to, convs[0]) else t;
      MoveAllOthers(t1, from, to, convs[1..], conv);
    }
  }

  /** Routes first and tasks afterwards come to the same as one at a time. */
  lemma {:induction false} TwoPasses(t: Table, from: SessionId, to: SessionId, moved: seq<(ConvId, Socket)>, order: seq<ConvId>)
    requires Collected(t, from, moved, order)
    ensures MoveAll(t, from, to, order) == Table(MoveRoutes(t.routes, from, to, moved), MoveTasks(t.tasks, from, to, moved))
    decreases |moved|
  {
    if moved != [] {
      var n := |moved| - 1;
      TwoPasses(t, from, to, moved[..n], order[..n]);
      assert order == order[..n] + [order[n]];
      MoveAllLast(t, from, to, order[..n], order[n]);
      MoveAllOthers(t, from, to, order[..n], order[n]);
      var t1 := MoveAll(t, from, to, order[..n]);
      assert MoveAll(t1, from, to, [order[n]]) == MoveRoute(t1, from, to, order[n]);
    }
  }

  class RouteMap {
    var routes: map<Key, Socket>
    var tasks: map<Key, Task>

    function View(): Table
      reads this
    {
      Table(routes, tasks)
    }

    constructor ()
      ensures View() == Table(map[], map[])
    {
      routes, tasks := map[], map[];
    }

    /** `ensure_upstream_route`; `socket` is what binding yields. */
    method EnsureRoute(key: Key, socket: Option<Socket>) returns (ok: bool)
      modifies this
      ensures ok <==> key in old(routes) || socket.Some?
      ensures View() == if socket.Some? then Ensure(old(View()), key, socket.value) else old(View())
    {
      if key in routes {
        return true;
      }
      if socket.None? {
        return false;
      }
      routes := routes[key := socket.value];
      tasks := tasks[key := Task(socket.value, true)];
      return true;
    }

    /** `remove_route`. */
    method Remove(key: Key)
      modifies this
      ensures View() == RemoveRoute(old(View()), key)
    {
      routes := routes - {key};
      tasks := tasks - {key};
    }

    /** `remove_session_routes`. */
    method RemoveAllOf(sid: SessionId)
      modifies this
      ensures View() == RemoveSession(old(View()), sid)
    {
      ghost var gone := set key | key in routes && key.0 == sid;
      var keys := set key | key in routes && key.0 == sid;
      while keys != {}
        invariant keys <= gone
        invariant routes == old(routes) - (gone - keys)
        invariant tasks == old(tasks) - (gone - keys)
        decreases keys
      {
        var key :| key in keys;
        Remove(key);
        keys := keys - {key};
      }
    }

    /** The routes of a session, with their sockets. */
    method Collect(from: SessionId) returns (order: seq<ConvId>, moved: seq<(ConvId, Socket)>)
      ensures Enumerates(order, RoutedUnder(View(), from)) && Collected(View(), from, moved, order)
    {
      order := Enumerate(RoutedUnder(View(), from));
      moved := [];
      for n := 0 to |order|
        invariant Collected(View(), from, moved, order[..n])
      {
        assert order[n] in order && order[n] in RoutedUnder(View(), from);
        moved := moved + [(order[n], routes[(from, order[n])])];
      }
      assert order[..|order|] == order;
    }

    /** `migrate_session_routes`: collect the session's routes, re-key them, then
        restart their tasks. */
    method Migrate(from: SessionId, to: SessionId) returns (order: seq<ConvId>)
      modifies this
      ensures Enumerates(order, RoutedUnder(old(View()), from))
      ensures View() == MoveAll(old(View()), from, to, order)
    {
      hide Enumerates, Collected, MoveAll, RoutedUnder;
      var moved: seq<(ConvId, Socket)>;
      order, moved := Collect(from);
      var i := 0;
      while i < |moved|
        invariant 0 <= i <= |moved|
        invariant routes == MoveRoutes(old(routes), from, to, moved[..i]) && tasks == old(tasks)
      {
        var (conv, socket) := moved[i];
        assert moved[..i + 1][..i] == moved[..i];
        routes := (routes - {(from, conv)})[(to, conv) := socket];
        i := i + 1;
      }
      i := 0;
      assert moved[..|moved|] == moved;
      while i < |moved|
        invariant 0 <= i <= |moved|
        invariant routes == MoveRoutes(old(routes), from, to, moved)
        invariant tasks == MoveTasks(old(tasks), from, to, moved[..i])
      {
        var (conv, socket) := moved[i];
        assert moved[..i + 1][..i] == moved[..i];
        tasks := (tasks - {(from, conv)})[(to, conv) := Task(socket, true)];
        i := i + 1;
      }
      assert moved[..|moved|] == moved;
      TwoPasses(old(View()), from, to, moved, order);
    }

    /** One action of `execute_server_actions`; `sent` is what sending yields. */
    method Perform(a: Action, socket: Option<Socket>, sent: bool) returns (ok: bool, ghost host: HostDraws)
      modifies this
      ensures host.socket == socket && host.sent == sent
      ensures Executed(View(), ok) == ExecuteOne(old(View()), a, host)
      ensures a.SessionResumed? ==> Enumerates(host.order, RoutedUnder(old(View()), a.oldSid))
    {
      ok, host := true, HostDraws(socket, [], sent);
      match a
      case DeliverToUpstream(sid, conv, _) =>
        ok := EnsureRoute((sid, conv), socket);
        if ok {
          ok := sent;
        }
      case SessionResumed(_, oldSid, newSid) =>
        var order := Migrate(oldSid, newSid);
        host := HostDraws(socket, order, sent);
      case SessionRecoveryExpired(sid) => RemoveAllOf(sid);
      case ConversationClosed(session, conv) =>
        if session.Some? {
          Remove((session.value, conv));
        }
      case _ =>
    }

    /** `execute_server_actions`, as far as routes are concerned. */
    method Run(actions: seq<Action>, sockets: seq<Option<Socket>>, sents: seq<bool>) returns (ok: bool, ghost hosts: seq<HostDraws>)
      requires |sockets| == |sents| == |actions|
      modifies this
      ensures |hosts| == |actions| && forall i :: 0 <= i < |hosts| ==> hosts[i].socket == sockets[i] && hosts[i].sent == sents[i]
      ensures Executed(View(), ok) == Execute(old(View()), actions, hosts)
    {
      var i := 0;
      hosts := [];
      ok := true;
      while i < |actions| && ok
        invariant 0 <= i <= |actions| && |hosts| == i
        invariant forall j :: 0 <= j < i ==> hosts[j].socket == sockets[j] && hosts[j].sent == sents[j]
        invariant Executed(View(), ok) == Execute(old(View()), actions[..i], hosts)
      {
        ghost var host;
        ghost var before := View();
        ok, host := Perform(actions[i], sockets[i], sents[i]);
        ExecuteConcat(old(View()), actions[..i], [actions[i]], hosts, [host]);
        assert actions[..i + 1] == actions[..i] + [actions[i]];
        hosts := hosts + [host];
        i := i + 1;
      }
      ghost var rest := seq(|actions| - i, j requires 0 <= j < |actions| - i => HostDraws(sockets[i + j], [], sents[i + j]));
      ExecuteConcat(old(View()), actions[..i], actions[i..], hosts, rest);
      assert actions == actions[..i] + actions[i..];
      hosts := hosts + rest;
    }

    /** One turn of the loop in `spawn_upstream_receiver`: what the receiver of `key` does
        with a datagram from upstream, or with a failure to receive one. */
    method Receive(engine: ServerEngine.Engine, key: Key, datagram: Option<seq<byte>>, at: Time) returns (ghost running: bool)
      requires key in routes && key in tasks && tasks[key].running
      modifies this`tasks, engine`sessions
      ensures var v := RouteTheorems.Service(old(engine.View()), old(View()), true);
              RouteTheorems.Service(engine.View(), View(), true) == RouteTheorems.Receive(engine.env, v, key, datagram, at)
      ensures key in tasks && tasks[key].running == running
    {
      running := true;
      if datagram.None? {
        tasks := tasks[key := tasks[key].(running := false)];
        return false;
      }
      if |datagram.value| > MAX_FRAME_PAYLOAD {
        return;
      }
      var reply := engine.HandleUpstream(key.0, key.1, datagram.value, at);
      if !reply.Ok? {
        tasks := tasks[key := tasks[key].(running := false)];
        return false;
      }
    }
  }
}
