/** The supervisor's promises, over every run. */
module SupervisorRuns {
  import opened Options
  import opened Identifiers
  import opened ProcessManager
  import opened Supervisor
  import opened SupervisorInvariants
  import opened SupervisorSteps
  import opened SupervisorTeardowns
  import opened SupervisorCommands
  import PortAllocation

  ghost predicate Follows(s: State, step: Step, s2: State) {
    PortAllocation.InRange(s.nextAutoPort) && Enabled(s, step) && s2 == Apply(s, step)
  }

  // The steps lead from `s` to `s2`.
  ghost predicate Path(s: State, steps: seq<Step>, s2: State)
    decreases |steps|
  {
    if steps == [] then s == s2
    else exists mid :: Follows(s, steps[0], mid) && Path(mid, steps[1..], s2)
  }

  ghost predicate Reachable(s: State) { exists steps :: Path(Initial, steps, s) }

  lemma PathCons(s: State, step: Step, mid: State, rest: seq<Step>, s2: State)
    requires Follows(s, step, mid) && Path(mid, rest, s2)
    ensures Path(s, [step] + rest, s2)
  {
    assert ([step] + rest)[1..] == rest;
  }

  lemma {:induction false} PathAppend(s: State, p: seq<Step>, mid: State, q: seq<Step>, s2: State)
    requires Path(s, p, mid) && Path(mid, q, s2)
    ensures Path(s, p + q, s2)
    decreases |p|
  {
    hide Follows;
    if p == [] {
      assert p + q == q;
    } else {
      var next :| Follows(s, p[0], next) && Path(next, p[1..], mid);
      PathAppend(next, p[1..], mid, q, s2);
      assert (p + q)[1..] == p[1..] + q;
    }
  }

  lemma ReachableStep(s: State, step: Step, s2: State)
    requires Reachable(s) && Follows(s, step, s2)
    ensures Reachable(s2)
  {
    hide Follows;
    var steps :| Path(Initial, steps, s);
    PathCons(s, step, s2, [], s2);
    PathAppend(Initial, steps, s, [step] + [], s2);
  }

  // --- Routes ----------------------------------------------------------------------

  // Every live port is published for the proxy.
  ghost predicate RoutesInv(s: State) {
    forall n :: n in RunningPorts(s.procs) ==> n in s.published && s.published[n] == RunningPorts(s.procs)[n]
  }

  // An open stop-all still waits for something.
  predicate BusyBatch(s: State) {
    s.stopAll.Some? ==> s.stopAll.value.remaining != {}
  }

  ghost predicate Sound(s: State) { Inv(s, None) && RoutesInv(s) && BusyBatch(s) }

  // No route appears or changes.
  ghost predicate RoutesShrink(s: State, s2: State) {
    forall n :: n in RunningPorts(s2.procs) ==> n in RunningPorts(s.procs) && RunningPorts(s2.procs)[n] == RunningPorts(s.procs)[n]
  }

  // A routed process has exited unnoticed.
  ghost predicate StaleRoute(s: State) {
    exists n :: n in s.procs && s.procs[n].life.Running? && s.procs[n].life.inc in s.world.exits && s.procs[n].port.Some?
  }

  lemma RefreshRoutes(s: State)
    ensures RoutesShrink(s, Refresh(s))
    ensures RunningPorts(Refresh(s).procs) == RunningPorts(s.procs) <==> !StaleRoute(s)
  {
    var s2 := Refresh(s);
    if n :| n in s.procs && s.procs[n].life.Running? && s.procs[n].life.inc in s.world.exits && s.procs[n].port.Some? {
      assert n in RunningPorts(s.procs) && n !in RunningPorts(s2.procs);
    }
  }

  lemma BeginStopRoutes(s: State, n: string, next: AfterStop, ws: seq<Waiter>, count: nat)
    requires n in s.procs && !s.procs[n].life.Stopping?
    ensures RunningPorts(BeginStop(s, n, next, ws, count).procs) == RunningPorts(s.procs)
    ensures BeginStop(s, n, next, ws, count).published == s.published
  {
  }

  lemma JoinStopRoutes(s: State, n: string, next: AfterStop, w: Waiter)
    requires n in s.procs && s.procs[n].life.Stopping?
    ensures RunningPorts(JoinStop(s, n, next, w).procs) == RunningPorts(s.procs)
  {
  }

  // Only Stop and Restart observe exits without publishing.
  predicate SkipsPublish(s: State, step: Step) {
    step.StopStep? || (step.RestartStep? && s.stopAll.None?)
  }

  lemma StopRoutes(s: State, r: ReplyId, target: string)
    ensures RunningPorts(HandleStop(s, r, target).procs) == RunningPorts(Refresh(s).procs)
    ensures HandleStop(s, r, target).published == s.published
    ensures s.stopAll.None? ==> RunningPorts(HandleRestart(s, r, target).procs) == RunningPorts(Refresh(s).procs)
    ensures s.stopAll.None? ==> HandleRestart(s, r, target).published == s.published
  {
    var s1 := Refresh(s);
    FindKeySound(s1.procs, target);
    match FindKey(s1.procs, target)
    case None =>
    case Some(n) =>
      if s1.procs[n].life.Stopping? {
        JoinStopRoutes(s1, n, Park, StopWaiter(r));
        JoinStopRoutes(s1, n, Respawn(Manual), RestartWaiter(r));
      } else {
        BeginStopRoutes(s1, n, Park, [StopWaiter(r)], s1.procs[n].restartCount);
        BeginStopRoutes(s1, n, Respawn(Manual), [RestartWaiter(r)], s1.procs[n].restartCount);
      }
  }

  // Either the map was published last or no route changed.
  ghost predicate RoutesSettled(s: State, s2: State) {
    s2.published == RunningPorts(s2.procs)
    || (s2.published == s.published && RunningPorts(s2.procs) == RunningPorts(s.procs))
  }

  lemma MarkAndTimeRoutes(s: State)
    ensures RunningPorts(MarkAndTime(s).procs) == RunningPorts(s.procs)
  {
  }

  lemma NoticingRoutes(s: State)
    ensures RoutesSettled(s, if Unobserved(s.procs, s.world.exits) then Publish(Refresh(s)) else Refresh(s))
  {
    RefreshRoutes(s);
  }

  lemma TickRoutes(s: State)
    ensures RoutesSettled(s, HandleTick(s))
  {
    hide RunningPorts;
    NoticingRoutes(s);
    MarkAndTimeRoutes(if Unobserved(s.procs, s.world.exits) then Publish(Refresh(s)) else Refresh(s));
  }

  lemma StatusRoutes(s: State, r: ReplyId)
    ensures RoutesSettled(s, HandleStatus(s, r))
  {
    hide RunningPorts;
    NoticingRoutes(s);
  }

  lemma AutoRestartRoutes(s: State, g: nat)
    requires g in s.world.timers
    ensures RoutesSettled(s, HandleAutoRestart(s, g))
  {
    hide FindKey, BeginStop, RunningPorts;
    var found := FindKey(s.procs, s.world.timers[g]);
    FindKeySound(s.procs, s.world.timers[g]);
    if found.Some? && !s.procs[found.value].life.Stopping? {
      BeginStopRoutes(LogAuto(TakeTimer(s, g), g), found.value, Respawn(Auto), [], s.procs[found.value].restartCount + 1);
    }
  }

  lemma WatchRestartRoutes(s: State, g: nat)
    requires g in s.world.issued
    ensures RoutesSettled(s, HandleWatchRestart(s, g))
  {
    var found := FindKey(s.procs, s.world.issued[g]);
    FindKeySound(s.procs, s.world.issued[g]);
    if found.Some? && !s.procs[found.value].life.Stopping? {
      BeginStopRoutes(LogReset(s, found.value), found.value, Respawn(Watch), [], 0);
    }
  }

  lemma OtherRoutes(s: State, step: Step)
    requires PortAllocation.InRange(s.nextAutoPort) && Enabled(s, step) && !SkipsPublish(s, step)
    ensures RoutesSettled(s, Apply(s, step))
  {
    hide HandleTick, HandleStatus, HandleAutoRestart, HandleWatchRestart;
    match step
    case StatusStep => StatusRoutes(Arrive(s), s.world.nextReply);
    case TickStep => TickRoutes(s);
    case AutoRestartStep(g) => AutoRestartRoutes(s, g);
    case WatchRestartStep(g) => WatchRestartRoutes(s, g);
    case _ =>
  }

  lemma StepRoutes(s: State, step: Step)
    requires PortAllocation.InRange(s.nextAutoPort) && Enabled(s, step) && RoutesInv(s)
    ensures RoutesInv(Apply(s, step))
  {
    if SkipsPublish(s, step) {
      StopRoutes(Arrive(s), s.world.nextReply, step.target);
      RefreshRoutes(Arrive(s));
    } else {
      OtherRoutes(s, step);
    }
  }

  // A step leaves the published map exact unless it is a Stop or Restart that notices
  // the exit of a routed process.
  lemma PublishedMapExact(s: State, step: Step)
    requires PortAllocation.InRange(s.nextAutoPort) && Enabled(s, step)
    requires s.published == RunningPorts(s.procs)
    ensures var s2 := Apply(s, step);
            s2.published == RunningPorts(s2.procs) <==> !(SkipsPublish(s, step) && StaleRoute(s))
  {
    if SkipsPublish(s, step) {
      StopRoutes(Arrive(s), s.world.nextReply, step.target);
      RefreshRoutes(Arrive(s));
    } else {
      OtherRoutes(s, step);
    }
  }

  // --- Every reachable state ----------------------------------------------------------

  lemma StepBusy(s: State, step: Step)
    requires PortAllocation.InRange(s.nextAutoPort) && Enabled(s, step) && BusyBatch(s)
    ensures BusyBatch(Apply(s, step))
  {
    hide FindKey, RunningPorts, NewTimers, ScheduleAll, ObserveAll;
  }

  lemma StepSound(s: State, step: Step)
    requires Sound(s) && PortAllocation.InRange(s.nextAutoPort) && Enabled(s, step)
    ensures Sound(Apply(s, step))
  {
    hide Inv, RoutesInv;
    StepKeeps(s, step);
    StepRoutes(s, step);
    StepBusy(s, step);
  }

  lemma InitialSound()
    ensures Sound(Initial)
  {
  }

  lemma {:induction false} PathSound(s: State, steps: seq<Step>, s2: State)
    requires Sound(s) && Path(s, steps, s2)
    ensures Sound(s2)
    decreases |steps|
  {
    hide Sound;
    if steps != [] {
      var mid :| Follows(s, steps[0], mid) && Path(mid, steps[1..], s2);
      StepSound(s, steps[0]);
      PathSound(mid, steps[1..], s2);
    }
  }

  lemma ReachableSound(s: State)
    requires Reachable(s)
    ensures Sound(s)
  {
    hide Sound;
    var steps :| Path(Initial, steps, s);
    InitialSound();
    PathSound(Initial, steps, s);
  }
}
