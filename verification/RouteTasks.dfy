/** How long the receiving task of a route lives. */
module RouteTasks {
  import opened Base
  import opened Protocol
  import opened Config
  import opened Messages
  import opened Sessions
  import opened Routes
  import opened ServerSpec
  import opened ServerInvariants
  import opened RouteTheorems

  // ---------------------------------------------------------------- refused replies

  /** The engine takes a reply exactly when it fits the configured payload, its
      session is active (not merely recoverable), its conversation has a handle in
      that session, and the packet counter is not exhausted. */
  lemma ReplyTakenExactly(env: ServerEnv, s: Server, sid: SessionId, conv: ConvId, payload: seq<byte>, now: Time)
    requires ValidConfig(env.cfg) && SessionTable(env, s.sessions)
    ensures HandleUpstream(env, s, sid, conv, payload, now).reply.Ok? <==>
              && |payload| <= env.cfg.maxFramePayload && sid in s.sessions
              && conv in s.sessions[sid].handles.byId && s.sessions[sid].sealer.next < U64_MAX
  {
    hide HandlesSound, AckOf, IsProtected;
    if sid in s.sessions {
      assert SessionSound(env, s.sessions[sid], sid);
      if |payload| <= env.cfg.maxFramePayload && conv in s.sessions[sid].handles.byId {
        TakenBy(env, s.sessions[sid], conv, payload, now);
      }
    }
  }

  lemma TakenBy(env: ServerEnv, session: ServerSession, conv: ConvId, payload: seq<byte>, now: Time)
    requires env.cfg.maxFramePayload <= MAX_FRAME_PAYLOAD && |payload| <= env.cfg.maxFramePayload && conv in session.handles.byId
    ensures var t := Touch(env, session, now);
            Seal(t.sealer, Data, Some(t.handles.byId[conv]), Payload(payload)).SealOk? <==> session.sealer.next < U64_MAX
  {
  }

  /** This input makes the receiver of `k` return. */
  ghost predicate Ends(env: ServerEnv, v: Service, i: Input, k: Key) {
    && i.Received? && i.key == k
    && (i.datagram.None?
        || (|i.datagram.value| <= MAX_FRAME_PAYLOAD
            && !HandleUpstream(env, v.server, k.0, k.1, i.datagram.value, i.at).reply.Ok?))
  }

  /** The receiver of a route that stays is as it was, unless this input ends it; that of
      a new route runs. */
  lemma TaskStep(env: ServerEnv, v: Service, i: Input, k: Key)
    requires ServiceInv(env, v) && ValidConfig(env.cfg) && ValidInput(env, v, i) && k in ServiceStep(env, v, i).table.routes
    ensures var t, t1 := v.table, ServiceStep(env, v, i).table;
            k in t1.tasks && (t1.tasks[k].running <==> if k in t.routes then k in t.tasks && t.tasks[k].running && !Ends(env, v, i, k) else true)
  {
    hide ServerInv, HandleUpstream, TakeEvent, Execute, Live, OneSocketEach, Follows, Held, FreshSockets;
    match i
    case Event(_, _, _, _) => EventAgrees(env, v, i);
    case Received(key, datagram, at) => ReplyAgrees(env, v, key, datagram, at);
  }

  // ---------------------------------------------------------------- over runs

  /** Input `n` of the run made the receiver of `k` return, and `k` has been routed ever
      since: the receiver was neither started again nor moved. */
  ghost predicate EndedAt(env: ServerEnv, inputs: seq<Input>, k: Key, n: nat)
    requires env.cfg.rateRefillInterval > 0
  {
    && n < |inputs|
    && Ends(env, ServiceRun(env, inputs[..n]), inputs[n], k)
    && (forall m :: n < m <= |inputs| ==> k in ServiceRun(env, inputs[..m]).table.routes)
  }

  /** One input more. */
  lemma EndedAtStep(env: ServerEnv, inputs: seq<Input>, k: Key, n: nat)
    requires env.cfg.rateRefillInterval > 0 && inputs != []
    requires k in ServiceRun(env, inputs).table.routes
    ensures var before := inputs[..|inputs| - 1];
            EndedAt(env, inputs, k, n) <==>
              || (n == |before| && Ends(env, ServiceRun(env, before), inputs[|before|], k))
              || EndedAt(env, before, k, n)
  {
    hide Ends, ServiceStep;
    var before := inputs[..|inputs| - 1];
    assert inputs[..|inputs|] == inputs;
    assert forall m :: 0 <= m <= |before| ==> before[..m] == inputs[..m];
  }

  /** After any run the receiver of a route runs if and only if, since it was last started
      or moved, receiving has not failed and no reply of it has been refused. */
  lemma {:induction false} TaskRunsExactly(env: ServerEnv, inputs: seq<Input>, k: Key)
    requires ValidConfig(env.cfg) && ValidInputs(env, inputs) && k in ServiceRun(env, inputs).table.routes
    ensures k in ServiceRun(env, inputs).table.tasks
    ensures ServiceRun(env, inputs).table.tasks[k].running <==> !exists n :: EndedAt(env, inputs, k, n)
    decreases |inputs|
  {
    hide EndedAt, Ends, ServiceStep, ServiceInv;
    if inputs == [] {
      NoRoutes(env, k);
    } else {
      var before := inputs[..|inputs| - 1];
      var v := ServiceRun(env, before);
      RoutesAgree(env, before);
      TaskStep(env, v, inputs[|before|], k);
      forall n: nat
        ensures EndedAt(env, inputs, k, n) <==>
                  (n == |before| && Ends(env, v, inputs[|before|], k)) || EndedAt(env, before, k, n)
      {
        EndedAtStep(env, inputs, k, n);
      }
      if k in v.table.routes {
        TaskRunsExactly(env, before, k);
        assert EndedAt(env, inputs, k, |before|) <==> Ends(env, v, inputs[|before|], k) || EndedAt(env, before, k, |before|);
      } else {
        NeverEnded(env, before, inputs[|before|], k);
      }
    }
  }

  lemma NoRoutes(env: ServerEnv, k: Key)
    requires env.cfg.rateRefillInterval > 0
    ensures k !in ServiceRun(env, []).table.routes
  {
  }

  lemma NeverEnded(env: ServerEnv, inputs: seq<Input>, i: Input, k: Key)
    requires ValidConfig(env.cfg) && ValidInputs(env, inputs) && k !in ServiceRun(env, inputs).table.routes
    requires ValidInput(env, ServiceRun(env, inputs), i) && ServiceInv(env, ServiceRun(env, inputs))
    ensures !Ends(env, ServiceRun(env, inputs), i, k)
    ensures forall n: nat :: !EndedAt(env, inputs, k, n)
  {
    assert inputs[..|inputs|] == inputs;
  }
}
