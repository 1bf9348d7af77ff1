/** Runs that show where two plausible promises end. */
module SupervisorExamples {
  import opened Options
  import opened Identifiers
  import opened ProcessManager
  import opened Supervisor
  import opened SupervisorInvariants
  import opened SupervisorRuns
  import opened SupervisorCommands
  import opened SupervisorMoves
  import PortAllocation

  const Web := "web"
  const WebRequest := SpawnRequest(Some(Web), Some(80), None, {}, true)

  // A process named "web" on port 80, just started in an empty session.
  lemma WebStarts() returns (s: State)
    ensures Reachable(s) && s.stopAll.None? && PortAllocation.InRange(s.nextAutoPort)
    ensures s.procs == map[Web := NewRecord(Web, IdString(1), Some(80), None, 1, 0)]
    ensures s.published == map[Web := 80]
    ensures s.world.exits == map[] && s.world.tasks == map[] && s.world.nextInc == 1
  {
    s := Apply(Initial, SpawnStep(WebRequest));
    assert !UnsafeName(Web);
    assert Path(Initial, [], Initial);
    ReachableStep(Initial, SpawnStep(WebRequest), s);
  }

  // The published map can fall behind: the exit of "web" is noticed by a Stop for
  // something else, which does not publish.
  lemma RouteGoesStale()
    ensures exists s :: Reachable(s) && s.published != RunningPorts(s.procs)
  {
    hide Reachable;
    var s1 := WebStarts();
    var s2 := Apply(s1, LeaderExitsStep(0, Some(0)));
    ReachableStep(s1, LeaderExitsStep(0, Some(0)), s2);
    assert s1.published == RunningPorts(s1.procs);
    assert s2.procs[Web].life.Running? && StaleRoute(s2);
    var s3 := Apply(s2, StopStep("db"));
    ReachableStep(s2, StopStep("db"), s3);
    PublishedMapExact(s2, StopStep("db"));
  }

  // A respawn that fails leaves a record that no Stop can protect from a file change: the stop is
  // answered, the event of the old watcher arrives, and the process runs again.
  lemma StoppedYetRevived() returns (failed: State, stopped: State, noticed: State, revived: State)
    ensures Reachable(failed) && Web in failed.procs
    ensures failed.procs[Web].life.Exited? && failed.procs[Web].life.why == SpawnFailed
    ensures Follows(failed, StopStep(Web), stopped)
    ensures stopped.world.answers == failed.world.answers + [Answer(failed.world.nextReply, Stopped(Web))]
    ensures Follows(stopped, WatchRestartStep(1), noticed)
    ensures Follows(noticed, StopFinishedStep(1, true), revived)
    ensures Web in revived.procs && revived.procs[Web].life.Running?
  {
    hide Reachable;
    failed := RespawnFails();
    stopped := Apply(failed, StopStep(Web));
    StaleWatchEvent(failed, Web, stopped);
    ReachableStep(failed, StopStep(Web), stopped);
    noticed := Apply(stopped, WatchRestartStep(1));
    FindKeySound(stopped.procs, Web);
    ReachableStep(stopped, WatchRestartStep(1), noticed);
    revived := Apply(noticed, StopFinishedStep(1, true));
    FindKeySound(noticed.procs, Web);
  }

  // "web" is being restarted and its teardown stands at `phase`.
  ghost predicate Restarting(s: State, phase: Phase) {
    s.stopAll.None? && PortAllocation.InRange(s.nextAutoPort) && Web in s.procs
    && s.procs[Web].life.Stopping? && s.procs[Web].life.next == Respawn(Manual) && s.procs[Web].generation == 1
    && 1 in s.world.tasks && s.world.tasks[1] == Teardown(Web, Some(0), None, phase)
  }

  lemma WebRestarts() returns (s: State)
    ensures Reachable(s) && Restarting(s, Started)
  {
    hide Reachable;
    var s0 := WebStarts();
    FindKeySound(Refresh(Arrive(s0)).procs, Web);
    s := Apply(s0, RestartStep(Web));
    ReachableStep(s0, RestartStep(Web), s);
  }

  lemma WebTornDown() returns (s: State)
    ensures Reachable(s) && Restarting(s, Reported(Some(-9)))
  {
    hide Reachable;
    var s1 := WebRestarts();
    var s2 := Apply(s1, TermStep(1));
    ReachableStep(s1, TermStep(1), s2);
    assert Restarting(s2, Terminated);
    var s3 := Apply(s2, KillStep(1));
    ReachableStep(s2, KillStep(1), s3);
    assert Restarting(s3, Killed);
    s := Apply(s3, ReapStep(1, true));
    ReachableStep(s3, ReapStep(1, true), s);
  }

  lemma RespawnFails() returns (s: State)
    ensures Reachable(s) && s.stopAll.None? && Web in s.procs
    ensures s.procs[Web].life.Exited? && s.procs[Web].life.why == SpawnFailed && s.procs[Web].life.zombie.None?
    ensures s.procs[Web].generation == 1 && s.procs[Web].name == Web && PortAllocation.InRange(s.nextAutoPort)
  {
    hide Reachable;
    var s1 := WebTornDown();
    FindKeySound(s1.procs, Web);
    s := Apply(s1, StopFinishedStep(1, false));
    ReachableStep(s1, StopFinishedStep(1, false), s);
    ReachableRecord(s, Web);
  }

  // --- An id that had been a name ---------------------------------------------------------------

  const OldName := "p2"

  lemma SecondId()
    ensures IdString(2) == OldName
  {
    assert Decimal(2) == [Digit(2)] == "2";
  }

  // A process with the only generation so far, being torn down by a stop-all.
  ghost predicate AllStopping(s: State, phase: Phase) {
    s.stopAll.Some? && s.stopAll.value.remaining == {OldName} && s.nextId == 2 && !s.proxyEnabled
    && s.procs.Keys == {OldName} && s.procs[OldName].generation == 1
    && s.procs[OldName].life.Stopping? && s.procs[OldName].life.next == Park
    && 1 in s.world.tasks && s.world.tasks[1] == Teardown(OldName, Some(0), None, phase)
    && PortAllocation.InRange(s.nextAutoPort)
  }

  // A process is explicitly named like the second id and has the first one.
  lemma NamedLikeAnId() returns (s: State)
    ensures Reachable(s) && s.procs == map[OldName := NewRecord(OldName, IdString(1), None, None, 1, 0)]
    ensures s.stopAll.None? && s.nextId == 2 && !s.proxyEnabled && PortAllocation.InRange(s.nextAutoPort)
    ensures s.world.exits == map[] && s.world.issued == map[1 := OldName]
  {
    var step := SpawnStep(SpawnRequest(Some(OldName), None, None, {}, true));
    s := Apply(Initial, step);
    assert !UnsafeName(OldName);
    assert Path(Initial, [], Initial);
    ReachableStep(Initial, step, s);
  }

  lemma StopAllBegins(s: State) returns (s2: State)
    requires s.procs == map[OldName := NewRecord(OldName, IdString(1), None, None, 1, 0)]
    requires s.stopAll.None? && s.nextId == 2 && !s.proxyEnabled && PortAllocation.InRange(s.nextAutoPort)
    requires s.world.exits == map[] && s.world.issued == map[1 := OldName]
    ensures Follows(s, StopAllStep, s2) && AllStopping(s2, Started)
  {
    s2 := Apply(s, StopAllStep);
    var s1 := Refresh(Arrive(s));
    assert s1.procs[OldName].life == Running(0);
    assert Covered(s1.procs) == {OldName};
    assert TornByStopAll(s1, 1);
  }

  lemma StopAllEnds(s: State) returns (steps: seq<Step>, s2: State)
    requires AllStopping(s, Started)
    ensures Path(s, steps, s2) && s2.procs == map[] && s2.stopAll.None? && s2.nextId == 2 && !s2.proxyEnabled
    ensures PortAllocation.InRange(s2.nextAutoPort)
  {
    var termed := Apply(s, TermStep(1));
    assert AllStopping(termed, Terminated);
    var killed := Apply(termed, KillStep(1));
    assert AllStopping(killed, Killed);
    var reaped := Apply(killed, ReapStep(1, true));
    assert AllStopping(reaped, Reported(Some(-9)));
    s2 := LastReport(reaped);
    assert Path(s2, [], s2);
    hide Follows;
    var last := [StopFinishedStep(1, true)] + [];
    PathCons(reaped, StopFinishedStep(1, true), s2, [], s2);
    PathCons(killed, ReapStep(1, true), reaped, last, s2);
    PathCons(termed, KillStep(1), killed, [ReapStep(1, true)] + last, s2);
    PathCons(s, TermStep(1), termed, [KillStep(1)] + ([ReapStep(1, true)] + last), s2);
    steps := [TermStep(1)] + ([KillStep(1)] + ([ReapStep(1, true)] + last));
  }

  lemma LastReport(s: State) returns (s2: State)
    requires AllStopping(s, Reported(Some(-9)))
    ensures Follows(s, StopFinishedStep(1, true), s2)
    ensures s2.procs == map[] && s2.stopAll.None? && s2.nextId == 2 && !s2.proxyEnabled && PortAllocation.InRange(s2.nextAutoPort)
  {
    FindKeySound(s.procs, OldName);
    s2 := Apply(s, StopFinishedStep(1, true));
    assert {OldName} - {OldName} == {};
  }

  lemma NextIsWeb(s: State) returns (step: Step, s2: State)
    requires s.procs == map[] && s.stopAll.None? && s.nextId == 2 && !s.proxyEnabled && PortAllocation.InRange(s.nextAutoPort)
    ensures Follows(s, step, s2) && s2.procs.Keys == {Web} && s2.procs[Web].id == OldName && s2.procs[Web].life.Running?
  {
    step := SpawnStep(SpawnRequest(Some(Web), None, None, {}, true));
    assert !UnsafeName(Web);
    SecondId();
    s2 := Apply(s, step);
  }

  // After a stop-all the next process gets an id that had been a name: whoever uses it means the
  // new process, but it is the old one's log that goes by it.
  lemma IdTakesOldName() returns (before: State, steps: seq<Step>, after: State)
    ensures Reachable(before) && OldName in before.procs && before.procs[OldName].life.Running?
    ensures Path(before, steps, after)
    ensures OldName !in after.procs && FindKey(after.procs, OldName) == Some(Web) && after.procs[Web].life.Running?
  {
    hide Path, Follows, Reachable, FindKey;
    before := NamedLikeAnId();
    var stopping := StopAllBegins(before);
    var rest, empty := StopAllEnds(stopping);
    var spawn;
    spawn, after := NextIsWeb(empty);
    NoSteps(after);
    var last := [spawn] + [];
    PathCons(empty, spawn, after, [], after);
    PathAppend(stopping, rest, empty, last, after);
    PathCons(before, StopAllStep, stopping, rest + last, after);
    steps := [StopAllStep] + (rest + last);
    FoundById(after.procs);
  }

  lemma NoSteps(s: State)
    ensures Path(s, [], s)
  {
  }

  lemma FoundById(procs: Table)
    requires procs.Keys == {Web} && procs[Web].id == OldName
    ensures OldName !in procs && FindKey(procs, OldName) == Some(Web)
  {
  }
}
