/** Stop-all: while it is open it only shrinks, it can always finish, and when it is
    answered nothing is left running. */
module SupervisorStopAll {
  import opened Options
  import opened ProcessManager
  import opened Supervisor
  import opened SupervisorInvariants
  import opened SupervisorSteps
  import opened SupervisorTeardowns
  import opened SupervisorCommands
  import opened SupervisorRuns
  import PortAllocation

  // Nothing is managed, nothing is being torn down and every incarnation is gone.
  ghost predicate AllDown(s: State) {
    s.procs == map[] && s.world.tasks == map[]
    && forall i: Incarnation :: i < s.world.nextInc ==> At(s, i, Gone)
  }

  lemma EmptyMeansDown(s: State)
    requires IncInv(s) && s.procs == map[] && s.world.tasks == map[]
    ensures AllDown(s)
  {
    forall i: Incarnation | i < s.world.nextInc ensures At(s, i, Gone) {
      assert SomePlace(s, i);
      var place :| At(s, i, place);
      assert place == Gone;
    }
  }

  // While a stop-all is open, no record runs, every record being stopped is waited for
  // and will be parked, and every other one has nothing left to tear down.
  lemma OpenStopAll(s: State, n: string)
    requires Reachable(s) && s.stopAll.Some?
    ensures s.stopAll.value.remaining != {}
    ensures n in s.stopAll.value.remaining <==> n in s.procs && s.procs[n].life.Stopping?
    ensures n in s.procs && s.procs[n].life.Stopping? ==> s.procs[n].life.next == Park
    ensures n in s.procs && !s.procs[n].life.Stopping? ==> s.procs[n].life.Exited? && s.procs[n].life.zombie.None?
  {
    ReachableSound(s);
  }

  // Steps other than a teardown reporting back neither end the stop-all nor change what it
  // waits for, and its clients keep waiting.
  lemma OpenStaysOpen(s: State, step: Step)
    requires PortAllocation.InRange(s.nextAutoPort) && Enabled(s, step)
    requires s.stopAll.Some? && !step.StopFinishedStep?
    ensures Apply(s, step).stopAll.Some?
    ensures Apply(s, step).stopAll.value.remaining == s.stopAll.value.remaining
    ensures s.stopAll.value.replies <= Apply(s, step).stopAll.value.replies
  {
    hide ObserveAll, RunningPorts, FindKey;
  }

  // A teardown reporting back takes exactly its own record off the list; the last one
  // answers every waiting client.
  lemma ReportShrinks(s: State, g: nat, ok: bool, s2: State)
    requires CoreInv(s) && TasksInv(s) && BatchInv(s) && s.stopAll.Some?
    requires Follows(s, StopFinishedStep(g, ok), s2)
    ensures g in s.world.tasks && s.world.tasks[g].name in s.stopAll.value.remaining
    ensures var n := s.world.tasks[g].name;
            if s.stopAll.value.remaining == {n}
            then s2.stopAll.None? && s2.procs == map[] && |s2.world.answers| >= |s.stopAll.value.replies|
                 && s2.world.answers[|s2.world.answers| - |s.stopAll.value.replies|..] == BatchAnswers(s.stopAll.value.replies)
            else s2.stopAll == Some(s.stopAll.value.(remaining := s.stopAll.value.remaining - {n}))
  {
    StopFinishedFindsItsRecord(s, g, ok);
    var n := s.world.tasks[g].name;
    assert n in StoppingNames(s.procs);
    assert s.stopAll.value.remaining - {n} == {} <==> s.stopAll.value.remaining == {n};
  }

  lemma SoundParts(s: State)
    requires Sound(s)
    ensures CoreInv(s) && TasksInv(s) && BatchInv(s) && IncInv(s)
    ensures s.stopAll.Some? ==> exists g :: g in s.world.tasks
  {
    if s.stopAll.Some? {
      var n :| n in s.stopAll.value.remaining;
      assert n in StoppingNames(s.procs);
    }
  }

  lemma NoRecordsNoTasks(s: State)
    requires TasksInv(s) && s.procs == map[]
    ensures s.world.tasks == map[]
  {
    assert forall g :: g in s.world.tasks ==> TaskOk(s, g);
  }

  // A stop-all that finds nothing to tear down is answered at once.
  lemma OpenedAndClosed(s: State, s2: State)
    requires Follows(s, StopAllStep, s2) && s.stopAll.None? && s2.stopAll.None?
    ensures s2.procs == map[]
  {
  }

  // When a stop-all has been answered nothing is left behind.
  lemma AnsweredMeansDown(s: State, step: Step, s2: State)
    requires Sound(s) && Follows(s, step, s2) && s2.stopAll.None?
    requires s.stopAll.Some? || step.StopAllStep?
    ensures AllDown(s2)
  {
    StepSound(s, step);
    hide Sound, Apply, CoreInv, TasksInv, BatchInv, IncInv;
    SoundParts(s);
    SoundParts(s2);
    if s.stopAll.Some? {
      if !step.StopFinishedStep? { OpenStaysOpen(s, step); }
      ReportShrinks(s, step.generation, step.ok, s2);
    } else {
      OpenedAndClosed(s, s2);
    }
    NoRecordsNoTasks(s2);
    EmptyMeansDown(s2);
  }

  // --- It can always finish ------------------------------------------------------------

  predicate TeardownStep(step: Step) {
    step.TermStep? || step.KillStep? || step.ReapStep? || step.StopFinishedStep?
  }

  function StepsLeft(phase: Phase): nat {
    match phase
    case Started => 4
    case Terminated => 3
    case Killed => 2
    case Reported(_) => 1
  }

  function NextStep(g: nat, phase: Phase): Step {
    match phase
    case Started => TermStep(g)
    case Terminated => KillStep(g)
    case Killed => ReapStep(g, true)
    case Reported(_) => StopFinishedStep(g, true)
  }

  lemma NextStepEnabled(s: State, g: nat)
    requires CoreInv(s) && TasksInv(s) && g in s.world.tasks
    ensures PortAllocation.InRange(s.nextAutoPort) && Enabled(s, NextStep(g, s.world.tasks[g].phase))
  {
    hide RecordOk;
    assert TaskOk(s, g);
  }

  lemma TaskCanStep(s: State, g: nat) returns (mid: State)
    requires CoreInv(s) && TasksInv(s) && g in s.world.tasks
    ensures Follows(s, NextStep(g, s.world.tasks[g].phase), mid)
  {
    hide CoreInv, TasksInv, Enabled, Apply, NextStep;
    NextStepEnabled(s, g);
    mid := Apply(s, NextStep(g, s.world.tasks[g].phase));
  }

  lemma TermMovesOn(s: State, g: nat, s2: State)
    requires Follows(s, TermStep(g), s2)
    ensures s2.stopAll == s.stopAll && g in s2.world.tasks && s2.world.tasks[g].phase == Terminated
  {
    hide HandleSpawn, HandleStop, HandleRestart, HandleStopAll, HandleStatus, HandleIsExited;
    hide HandleEnableProxy, HandleTick, HandleAutoRestart, HandleWatchRestart, HandleStopFinished;
  }

  lemma KillMovesOn(s: State, g: nat, s2: State)
    requires Follows(s, KillStep(g), s2)
    ensures s2.stopAll == s.stopAll && g in s2.world.tasks && s2.world.tasks[g].phase == Killed
  {
    hide HandleSpawn, HandleStop, HandleRestart, HandleStopAll, HandleStatus, HandleIsExited;
    hide HandleEnableProxy, HandleTick, HandleAutoRestart, HandleWatchRestart, HandleStopFinished;
  }

  lemma ReapMovesOn(s: State, g: nat, s2: State)
    requires Follows(s, ReapStep(g, true), s2)
    ensures s2.stopAll == s.stopAll && g in s2.world.tasks && s2.world.tasks[g].phase.Reported?
  {
    hide HandleSpawn, HandleStop, HandleRestart, HandleStopAll, HandleStatus, HandleIsExited;
    hide HandleEnableProxy, HandleTick, HandleAutoRestart, HandleWatchRestart, HandleStopFinished;
  }

  lemma TaskMovesOn(s: State, g: nat, s2: State)
    requires g in s.world.tasks && !s.world.tasks[g].phase.Reported?
    requires Follows(s, NextStep(g, s.world.tasks[g].phase), s2)
    ensures s2.stopAll == s.stopAll && g in s2.world.tasks
    ensures StepsLeft(s2.world.tasks[g].phase) == StepsLeft(s.world.tasks[g].phase) - 1
  {
    hide Follows;
    match s.world.tasks[g].phase
    case Started => TermMovesOn(s, g, s2);
    case Terminated => KillMovesOn(s, g, s2);
    case Killed => ReapMovesOn(s, g, s2);
  }

  lemma StepFollows(s: State, step: Step, s2: State)
    requires Sound(s) && Follows(s, step, s2)
    ensures Sound(s2)
  {
    StepSound(s, step);
  }

  lemma ReportCounts(s: State, g: nat, s2: State)
    requires Sound(s) && s.stopAll.Some? && Follows(s, StopFinishedStep(g, true), s2)
    ensures if s2.stopAll.None? then AllDown(s2)
            else |s2.stopAll.value.remaining| == |s.stopAll.value.remaining| - 1
  {
    SoundParts(s);
    hide Sound, AllDown, Follows, CoreInv, TasksInv, BatchInv, IncInv;
    ReportShrinks(s, g, true, s2);
    if s2.stopAll.None? { AnsweredMeansDown(s, StopFinishedStep(g, true), s2); }
  }

  // Letting one teardown run to its end.
  lemma {:induction false} DrainTask(s: State, g: nat) returns (steps: seq<Step>, s2: State)
    requires Sound(s) && s.stopAll.Some? && g in s.world.tasks
    ensures Path(s, steps, s2) && Sound(s2)
    ensures |steps| <= StepsLeft(s.world.tasks[g].phase) && forall k :: 0 <= k < |steps| ==> TeardownStep(steps[k])
    ensures if s2.stopAll.None? then AllDown(s2) else |s2.stopAll.value.remaining| == |s.stopAll.value.remaining| - 1
    decreases StepsLeft(s.world.tasks[g].phase)
  {
    hide Sound, Follows, AllDown, CoreInv, TasksInv, BatchInv, IncInv;
    var step := NextStep(g, s.world.tasks[g].phase);
    SoundParts(s);
    var mid := TaskCanStep(s, g);
    StepFollows(s, step, mid);
    var rest := [];
    if s.world.tasks[g].phase.Reported? {
      ReportCounts(s, g, mid);
      s2 := mid;
    } else {
      TaskMovesOn(s, g, mid);
      rest, s2 := DrainTask(mid, g);
    }
    PathCons(s, step, mid, rest, s2);
    steps := [step] + rest;
  }

  lemma RemainingNonEmpty(s: State)
    requires Sound(s) && s.stopAll.Some?
    ensures |s.stopAll.value.remaining| > 0
  {
  }

  // From any state with a stop-all open, letting the teardowns under way run their course
  // - at most four steps each - ends it with everything down.
  lemma StopAllFinishes(s: State) returns (steps: seq<Step>, s2: State)
    requires Sound(s) && s.stopAll.Some?
    ensures Path(s, steps, s2) && |steps| <= 4 * |s.stopAll.value.remaining|
    ensures forall k :: 0 <= k < |steps| ==> TeardownStep(steps[k])
    ensures s2.stopAll.None? && AllDown(s2)
    decreases |s.stopAll.value.remaining|
  {
    hide Sound, Follows, CoreInv, TasksInv, BatchInv, IncInv, AllDown;
    SoundParts(s);
    var g: nat :| g in s.world.tasks;
    RemainingNonEmpty(s);
    var first, mid := DrainTask(s, g);
    if mid.stopAll.None? {
      steps, s2 := first, mid;
    } else {
      var rest;
      rest, s2 := StopAllFinishes(mid);
      steps := first + rest;
      PathAppend(s, first, mid, rest, s2);
    }
  }
}
