/** When a run loses its server. */
module TunnelPanics {
  import opened Messages
  import opened Tunnel
  import opened TunnelInvariant
  import S = ServerSpec
  import SI = ServerInvariants
  import SR = ServerResumption
  import TT = TunnelTheorems

  /** In a run a server step panics exactly when a panic is due. */
  lemma CrashesExactly(env: Env, steps: seq<Step>, event: S.ServerEvent, now: Time, draws: S.ServerDraws)
    requires ValidEnv(env) && ValidRun(env, steps) && Enabled(env, Run(env, steps), ServerStep(event, now, draws))
    ensures var sys := Run(env, steps);
            !Next(env, sys, ServerStep(event, now, draws)).serverUp <==> SR.PanicDue(env.server, sys.server, event, now, draws)
  {
    hide SR.PanicDue;
    var sys := Run(env, steps);
    TT.RunInv(env, steps);
    TT.DrawsFresh(sys.history, sys.server, draws.conv);
    SR.PanicsExactly(env.server, sys.server, event, now, draws);
  }

  /** No handshake accepted so far resumed an earlier session. */
  ghost predicate NoneResumed(h: History) {
    forall key :: key in h.accepted ==> !h.accepted[key].resumed
  }

  lemma UnresumedCalm(env: Env, sys: System, event: S.ServerEvent, now: Time, draws: S.ServerDraws)
    requires SystemInv(env, sys) && NoneResumed(sys.history)
    ensures !SR.PanicDue(env.server, sys.server, event, now, draws)
  {
    if event.TunnelFrame? && event.frame.RecordMsg? && event.frame.header.sid in sys.server.sessions {
      var sid := event.frame.header.sid;
      var session := sys.server.sessions[sid];
      assert ServerSessionLink(sys.history, session) && SI.SessionSound(env.server, session, sid);
      assert AcceptedSound(sys.history, SI.KeyOf(session));
      SR.UnresumedBound(env.server, session, sid);
    }
  }

  lemma AcceptedStays(env: Env, sys: System, step: Step)
    requires SystemInv(env, sys) && ValidEnv(env) && Enabled(env, sys, step)
    ensures NoneResumed(Next(env, sys, step).history) ==> NoneResumed(sys.history)
  {
    match step
    case ClientStep(_, _, _) =>
    case ServerStep(event, now, draws) => TT.ServerSetting(env, sys, event, now, draws);
  }

  /** A run in which no session is resumed never loses its server. */
  lemma {:induction false} NeverResumedNeverCrashes(env: Env, steps: seq<Step>)
    requires ValidEnv(env) && ValidRun(env, steps) && NoneResumed(Run(env, steps).history)
    ensures Run(env, steps).serverUp
    decreases |steps|
  {
    if steps != [] {
      var before, step := steps[..|steps| - 1], steps[|steps| - 1];
      var sys := Run(env, before);
      TT.RunInv(env, before);
      AcceptedStays(env, sys, step);
      NeverResumedNeverCrashes(env, before);
      match step
      case ClientStep(_, _, _) =>
      case ServerStep(event, now, draws) =>
        CrashesExactly(env, before, event, now, draws);
        UnresumedCalm(env, sys, event, now, draws);
    }
  }
}
