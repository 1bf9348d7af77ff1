/** What each command, message and effect leaves behind, told record by record in terms of the
    states a record can be in, whatever functions compute it. */
module SupervisorOutcomes {
  import opened Options
  import opened Identifiers
  import opened ProcessManager
  import opened Supervisor
  import opened SupervisorInvariants
  import opened SupervisorTeardowns
  import opened SupervisorCommands
  import opened SupervisorRuns
  import PortAllocation

  // --- Words for it ------------------------------------------------------------------------

  // `target` means record `n`: by its name, or by its id when no record has that name.
  predicate Means(procs: Table, target: string, n: string) {
    n in procs && (n == target || (target !in procs && procs[n].id == target))
  }

  // A stop of `p` has begun between `s` and `s2`: its teardown owns what the record held.
  ghost predicate Begun(s: State, p: ManagedProcess, s2: State, next: AfterStop, waiters: seq<Waiter>, count: nat) {
    var q := p.(restartCount := count);
    p.name in s2.procs
    && match p.life
       case Running(i) =>
         s2.procs[p.name] == q.(life := Stopping(None, next, waiters))
         && s2.world.tasks == s.world.tasks[p.generation := Teardown(p.name, Some(i), None, Started)]
       case Exited(code, _, Some(i), _) =>
         s2.procs[p.name] == q.(life := Stopping(Some(code), next, waiters))
         && s2.world.tasks == s.world.tasks[p.generation := Teardown(p.name, Some(i), Some(code), Started)]
       case Exited(code, _, None, _) =>
         s2.procs[p.name] == q.(life := Stopping(Some(code), next, waiters))
         && s2.world.tasks == s.world.tasks[p.generation := Teardown(p.name, None, Some(code), Reported(code))]
       case Stopping(_, _, _) => false
  }

  // The command on channel `r` is answered with `response`, and nobody else is answered.
  predicate Answers(s: State, s2: State, r: ReplyId, response: Response) {
    s2.world.answers == s.world.answers + [Answer(r, response)]
  }

  // Nobody is answered yet.
  predicate KeepsWaiting(s: State, s2: State) { s2.world.answers == s.world.answers }

  // Records other than those of `names` are as they were, but for exits noticed on the way.
  predicate OthersNoticed(s: State, s2: State, names: set<string>) {
    s2.procs.Keys == s.procs.Keys
    && forall m :: m in s.procs && m in s2.procs && m !in names ==> s2.procs[m] == Observed(s.procs[m], s.world.exits)
  }

  // An exit is noticed on running records only, and becomes their own natural exit with the
  // incarnation still to be reaped.
  lemma ExitNoticed(p: ManagedProcess, exits: map<Incarnation, Code>)
    ensures forall i :: p.life == Running(i) && i in exits ==>
              Observed(p, exits) == p.(life := Exited(exits[i], Natural, Some(i), false))
    ensures (forall i :: p.life == Running(i) ==> i !in exits) ==> Observed(p, exits) == p
  {
  }

  lemma Parts(s: State)
    requires Reachable(s)
    ensures CoreInv(s) && TasksInv(s) && TimersInv(s) && BatchInv(s)
  {
    ReachableSound(s);
  }

  // A target means at most one record, and it is the one that is found.
  lemma MeansFound(s: State, target: string, n: string)
    requires CoreInv(s)
    ensures FindKey(Refresh(s).procs, target) == Some(n) <==> Means(s.procs, target, n)
    ensures FindKey(s.procs, target) == Some(n) <==> Means(s.procs, target, n)
    ensures Means(s.procs, target, n) ==> s.procs[n].name == n
  {
    var seen := Refresh(s).procs;
    assert forall m :: m in s.procs ==> seen[m].id == s.procs[m].id;
    if Means(s.procs, target, n) {
      assert RecordOk(s, n);
      assert seen[n].id == s.procs[n].id;
    }
  }

  lemma ObservedKeeps(p: ManagedProcess, exits: map<Incarnation, Code>)
    ensures Observed(p, exits) == p.(life := Observed(p, exits).life)
    ensures p.life.Stopping? <==> Observed(p, exits).life.Stopping?
  {
  }

  lemma SameTable(s: State)
    ensures Refresh(Arrive(s)).procs == Refresh(s).procs
  {
  }

  // --- Stop -----------------------------------------------------------------------------------

  // A record already being stopped will be parked and has one waiter more; one with something to
  // tear down starts to be; one with nothing left is answered at once.
  ghost predicate StopDone(s: State, r: ReplyId, p: ManagedProcess, s2: State) {
    match p.life
    case Stopping(exit, _, waiters) =>
      p.name in s2.procs && s2.procs[p.name] == p.(life := Stopping(exit, Park, waiters + [StopWaiter(r)]))
      && s2.world.tasks == s.world.tasks && KeepsWaiting(s, s2)
    case Exited(_, _, None, _) =>
      p.name in s2.procs && s2.procs[p.name] == p && s2.world.tasks == s.world.tasks && Answers(s, s2, r, Stopped(p.name))
    case _ => Begun(s, p, s2, Park, [StopWaiter(r)], p.restartCount) && KeepsWaiting(s, s2)
  }

  lemma StopKnown(s: State, r: ReplyId, target: string, n: string)
    requires FindKey(Refresh(s).procs, target) == Some(n) && n in s.procs && s.procs[n].name == n
    ensures var s2 := HandleStop(s, r, target);
            OthersNoticed(s, s2, {n}) && StopDone(s, r, Observed(s.procs[n], s.world.exits), s2)
  {
    hide FindKey, Observed;
    ObservedKeeps(s.procs[n], s.world.exits);
  }

  lemma StopUnknown(s: State, r: ReplyId, target: string)
    requires FindKey(Refresh(s).procs, target).None?
    ensures var s2 := HandleStop(s, r, target);
            Answers(s, s2, r, NotFound(target)) && OthersNoticed(s, s2, {}) && s2.world.tasks == s.world.tasks
  {
    hide FindKey;
  }

  lemma StopOutcome(s: State, target: string, s2: State, n: string)
    requires Reachable(s) && Follows(s, StopStep(target), s2)
    ensures (forall m :: !Means(s.procs, target, m)) ==>
              Answers(s, s2, s.world.nextReply, NotFound(target)) && OthersNoticed(s, s2, {}) && s2.world.tasks == s.world.tasks
    ensures Means(s.procs, target, n) ==>
              OthersNoticed(s, s2, {n}) && StopDone(s, s.world.nextReply, Observed(s.procs[n], s.world.exits), s2)
  {
    hide HandleStop, Follows, FindKey, Reachable, CoreInv, TasksInv, TimersInv, BatchInv, Observed, ObserveAll, Refresh;
    Parts(s);
    var a, r := Arrive(s), s.world.nextReply;
    SameTable(s);
    StopIs(s, target, s2);
    FindOrNone(s, target);
    MeansFound(s, target, n);
    if Means(s.procs, target, n) {
      StopKnown(a, r, target, n);
    } else if forall m :: !Means(s.procs, target, m) {
      StopUnknown(a, r, target);
    }
  }

  lemma StopIs(s: State, target: string, s2: State)
    requires Follows(s, StopStep(target), s2)
    ensures s2 == HandleStop(Arrive(s), s.world.nextReply, target)
  {
    hide HandleStop;
  }

  lemma FindOrNone(s: State, target: string)
    requires CoreInv(s)
    ensures (forall m :: !Means(s.procs, target, m)) <==> FindKey(Refresh(s).procs, target).None?
  {
    hide CoreInv, FindKey;
    var found := FindKey(Refresh(s).procs, target);
    if found.Some? { MeansFound(s, target, found.value); }
    if m :| Means(s.procs, target, m) { MeansFound(s, target, m); }
  }

  // --- Restart ----------------------------------------------------------------------------------

  // A record already being stopped will be respawned and has one waiter more; any other starts to
  // be torn down, its budget as it is.
  ghost predicate RestartDone(s: State, r: ReplyId, p: ManagedProcess, s2: State) {
    KeepsWaiting(s, s2)
    && match p.life
       case Stopping(exit, _, waiters) =>
         p.name in s2.procs && s2.procs[p.name] == p.(life := Stopping(exit, Respawn(Manual), waiters + [RestartWaiter(r)]))
         && s2.world.tasks == s.world.tasks
       case _ => Begun(s, p, s2, Respawn(Manual), [RestartWaiter(r)], p.restartCount)
  }

  lemma RestartKnown(s: State, r: ReplyId, target: string, n: string)
    requires FindKey(Refresh(s).procs, target) == Some(n) && n in s.procs && s.procs[n].name == n && s.stopAll.None?
    ensures var s2 := HandleRestart(s, r, target);
            OthersNoticed(s, s2, {n}) && RestartDone(s, r, Observed(s.procs[n], s.world.exits), s2)
  {
    hide FindKey, Observed;
    ObservedKeeps(s.procs[n], s.world.exits);
  }

  lemma RestartUnknown(s: State, r: ReplyId, target: string)
    requires FindKey(Refresh(s).procs, target).None? && s.stopAll.None?
    ensures var s2 := HandleRestart(s, r, target);
            Answers(s, s2, r, NotFound(target)) && OthersNoticed(s, s2, {}) && s2.world.tasks == s.world.tasks
  {
    hide FindKey;
  }

  // None is restarted while a stop-all is open.
  lemma RestartOutcome(s: State, target: string, s2: State, n: string)
    requires Reachable(s) && Follows(s, RestartStep(target), s2)
    ensures s.stopAll.Some? ==>
              Answers(s, s2, s.world.nextReply, Refused(StopAllInProgress)) && s2.procs == s.procs && s2.world.tasks == s.world.tasks
    ensures s.stopAll.None? && (forall m :: !Means(s.procs, target, m)) ==>
              Answers(s, s2, s.world.nextReply, NotFound(target)) && OthersNoticed(s, s2, {}) && s2.world.tasks == s.world.tasks
    ensures s.stopAll.None? && Means(s.procs, target, n) ==>
              OthersNoticed(s, s2, {n}) && RestartDone(s, s.world.nextReply, Observed(s.procs[n], s.world.exits), s2)
  {
    hide HandleRestart, Follows, FindKey, Reachable, CoreInv, TasksInv, TimersInv, BatchInv, Observed, ObserveAll, Refresh;
    Parts(s);
    var a, r := Arrive(s), s.world.nextReply;
    SameTable(s);
    RestartIs(s, target, s2);
    FindOrNone(s, target);
    MeansFound(s, target, n);
    if s.stopAll.Some? {
      RestartRefused(a, r, target);
    } else if Means(s.procs, target, n) {
      RestartKnown(a, r, target, n);
    } else if forall m :: !Means(s.procs, target, m) {
      RestartUnknown(a, r, target);
    }
  }

  lemma RestartIs(s: State, target: string, s2: State)
    requires Follows(s, RestartStep(target), s2)
    ensures s2 == HandleRestart(Arrive(s), s.world.nextReply, target)
  {
    hide HandleRestart;
  }

  lemma RestartRefused(s: State, r: ReplyId, target: string)
    requires s.stopAll.Some?
    ensures HandleRestart(s, r, target) == Reply(s, r, Refused(StopAllInProgress))
  {
  }

  // --- The end of a teardown ------------------------------------------------------------------------

  // The record `p` once its teardown has reported `code`: parked, running under a fresh id,
  // generation and incarnation, or failed to start. Only a manual restart gives the budget back.
  predicate Concluded(s: State, p: ManagedProcess, code: Code, ok: bool, q: ManagedProcess) {
    q.name == p.name && q.port == p.port && q.policy == p.policy
    && q.restartCount == (if p.life.Stopping? && p.life.next == Respawn(Manual) then 0 else p.restartCount)
    && match p.life
       case Stopping(_, Park, _) =>
         q.life == Exited(code, ManualStop, None, false) && q.id == p.id && q.generation == p.generation
       case Stopping(_, Respawn(_), _) =>
         if ok then q.life == Running(s.world.nextInc) && q.id == IdString(s.nextId) && q.generation == s.nextGeneration + 1
         else q.life == Exited(code, SpawnFailed, None, false) && q.id == p.id && q.generation == p.generation
       case _ => false
  }

  lemma TeardownConcludes(s: State, n: string, code: Code, ok: bool)
    requires n in s.procs && s.procs[n].life.Stopping?
    ensures var s2 := FinishTeardown(s, n, code, ok);
            s2.procs == s.procs[n := s2.procs[n]] && Concluded(s, s.procs[n], code, ok, s2.procs[n])
            && s2.world.tasks == s.world.tasks
            && s2.nextId == (if s.procs[n].life.next.Respawn? then s.nextId + 1 else s.nextId)
            && s2.nextGeneration == (if s.procs[n].life.next.Respawn? then s.nextGeneration + 1 else s.nextGeneration)
            && s2.stopAll == (if s.stopAll.None? then None else Some(s.stopAll.value.(remaining := s.stopAll.value.remaining - {n})))
  {
  }

  // A teardown that reports ends on its record alone. When it was the last one of a stop-all the
  // table is cleared instead.
  lemma StopFinishedOutcome(s: State, g: nat, ok: bool, s2: State, n: string)
    requires Reachable(s) && Follows(s, StopFinishedStep(g, ok), s2) && n == s.world.tasks[g].name
    ensures n in s.procs && s.procs[n].life.Stopping? && s.procs[n].generation == g
    ensures s2.world.tasks == s.world.tasks - {g}
    ensures if s.stopAll.Some? && s.stopAll.value.remaining == {n} then s2.procs == map[] && s2.stopAll.None?
            else n in s2.procs && s2.procs == s.procs[n := s2.procs[n]]
                 && Concluded(s, s.procs[n], s.world.tasks[g].phase.code, ok, s2.procs[n])
  {
    hide FindKey, Reachable, CoreInv, TasksInv, TimersInv, HandleStopFinished, FinishTeardown, RunningPorts, Concluded, Follows;
    Parts(s);
    FinishIs(s, g, ok, s2);
    StopFinishedFindsItsRecord(s, g, ok);
    TeardownConcludes(TakeTask(s, g), n, s.world.tasks[g].phase.code, ok);
    ConcludedAfter(s, g, s.procs[n], s.world.tasks[g].phase.code, ok, Finished(s, g, n, ok).procs[n]);
    if s.stopAll.Some? {
      assert n in s.stopAll.value.remaining;
      assert s.stopAll.value.remaining - {n} == {} <==> s.stopAll.value.remaining == {n};
    }
  }

  lemma FinishIs(s: State, g: nat, ok: bool, s2: State)
    requires Follows(s, StopFinishedStep(g, ok), s2)
    ensures g in s.world.tasks && s.world.tasks[g].phase.Reported? && s2 == HandleStopFinished(s, g, ok)
  {
    hide HandleStopFinished;
  }

  lemma ConcludedAfter(s: State, g: nat, p: ManagedProcess, code: Code, ok: bool, q: ManagedProcess)
    ensures Concluded(TakeTask(s, g), p, code, ok, q) <==> Concluded(s, p, code, ok, q)
  {
  }

  // --- The periodic tick -----------------------------------------------------------------------------

  // The policy brings the process back after this exit. An exit by a signal has no code.
  predicate BroughtBack(policy: Option<RestartPolicy>, code: Code) {
    policy.Some? && (policy.value.mode == Always || (policy.value.mode == OnFailure && code != Some(0)))
  }

  predicate LimitReached(policy: Option<RestartPolicy>, count: nat) {
    policy.Some? && policy.value.maxRestarts.Some? && policy.value.maxRestarts.value <= count
  }

  // An exit of its own that nothing has dealt with yet.
  predicate OwnExit(life: Life) { life.Exited? && life.why == Natural && !life.restartTimer }

  lemma CandidateIs(p: ManagedProcess)
    ensures Restartable(p) <==> OwnExit(p.life) && BroughtBack(p.policy, p.life.code) && !LimitReached(p.policy, p.restartCount)
    ensures Spent(p) <==> OwnExit(p.life) && BroughtBack(p.policy, p.life.code) && LimitReached(p.policy, p.restartCount)
  {
  }

  // What an exit of its own becomes at a tick.
  predicate Classified(p: ManagedProcess, code: Code, zombie: Option<Incarnation>, q: ManagedProcess) {
    if !BroughtBack(p.policy, code) then q == p.(life := Exited(code, Natural, zombie, false))
    else if LimitReached(p.policy, p.restartCount) then q == p.(life := Exited(code, Exhausted, zombie, false))
    else q == p.(life := Exited(code, Natural, zombie, true))
  }

  lemma ClassifyingScheduled(p: ManagedProcess)
    ensures forall code, zombie :: p.life == Exited(code, Natural, zombie, false) ==> Classified(p, code, zombie, Scheduled(p))
    ensures !OwnExit(p.life) ==> Scheduled(p) == p
  {
  }

  lemma TickParts(s: State)
    ensures HandleTick(s).procs == if s.stopAll.Some? then ObserveAll(s.procs, s.world.exits) else ScheduleAll(ObserveAll(s.procs, s.world.exits))
    ensures HandleTick(s).world.tasks == s.world.tasks && HandleTick(s).world.answers == s.world.answers
    ensures HandleTick(s).world.timers == if s.stopAll.Some? then s.world.timers else s.world.timers + NewTimers(Refresh(s))
  {
    hide ObserveAll, ScheduleAll, NewTimers, RunningPorts, Unobserved, ScheduleRestarts;
    var seen := Refresh(s);
    TimersUnpublished(seen);
    ScheduleParts(seen);
    ScheduleParts(Publish(seen));
  }

  lemma ScheduleParts(s: State)
    ensures ScheduleRestarts(s).procs == if s.stopAll.Some? then s.procs else ScheduleAll(s.procs)
    ensures ScheduleRestarts(s).world.tasks == s.world.tasks && ScheduleRestarts(s).world.answers == s.world.answers
    ensures ScheduleRestarts(s).world.timers == if s.stopAll.Some? then s.world.timers else s.world.timers + NewTimers(s)
  {
    hide ScheduleAll, NewTimers, RunningPorts, AnySpent;
  }

  lemma TimersUnpublished(s: State)
    ensures NewTimers(Publish(s)) == NewTimers(s)
  {
  }

  lemma TickTable(s: State, n: string)
    requires n in s.procs
    ensures n in HandleTick(s).procs && HandleTick(s).procs.Keys == s.procs.Keys
    ensures HandleTick(s).procs[n] == if s.stopAll.Some? then Observed(s.procs[n], s.world.exits)
                                      else Scheduled(Observed(s.procs[n], s.world.exits))
    ensures HandleTick(s).world.tasks == s.world.tasks && HandleTick(s).world.answers == s.world.answers
  {
    hide HandleTick, Observed, Scheduled;
    TickParts(s);
  }

  // A process whose leader has exited on its own awaits its restart, with the timer in flight, is
  // given up on, or stays down, as its policy says of that exit; nobody else is touched, and with
  // a stop-all open exits are only noticed.
  lemma TickOutcome(s: State, s2: State, n: string)
    requires Reachable(s) && Follows(s, TickStep, s2) && n in s.procs
    ensures n in s2.procs && s2.procs.Keys == s.procs.Keys && s2.world.tasks == s.world.tasks
    ensures s.stopAll.Some? ==> s2.procs[n] == Observed(s.procs[n], s.world.exits)
    ensures s.stopAll.None? ==>
              var p, q := s.procs[n], s2.procs[n];
              match p.life
              case Running(i) => if i in s.world.exits then Classified(p, s.world.exits[i], Some(i), q) else q == p
              case Exited(code, Natural, zombie, false) => Classified(p, code, zombie, q)
              case _ => q == p
    ensures s2.procs[n].life.Exited? && s2.procs[n].life.restartTimer ==>
              s2.procs[n].generation in s2.world.timers && s2.world.timers[s2.procs[n].generation] == n
    ensures s2.procs[n].life.Exited? && s2.procs[n].life.why == Natural && !s2.procs[n].life.restartTimer ==>
              s2.procs[n].generation !in s2.world.timers
    ensures s.stopAll.None? && s.procs[n].life.Running? && s2.procs[n].life.Exited? && s2.procs[n].life.why == Exhausted ==>
              s2.procs[n].generation !in s2.world.timers
  {
    hide Follows, Reachable, HandleTick, Scheduled, Observed;
    TickIs(s, s2);
    TickTable(s, n);
    ExitNoticed(s.procs[n], s.world.exits);
    ClassifyingScheduled(Observed(s.procs[n], s.world.exits));
    TickTimersOf(s, s2, n);
  }

  lemma TickTimersOf(s: State, s2: State, n: string)
    requires Reachable(s) && Follows(s, TickStep, s2) && n in s.procs && n in s2.procs
    ensures s2.procs[n].life.Exited? && s2.procs[n].life.restartTimer ==>
              s2.procs[n].generation in s2.world.timers && s2.world.timers[s2.procs[n].generation] == n
    ensures s2.procs[n].life.Exited? && s2.procs[n].life.why == Natural && !s2.procs[n].life.restartTimer ==>
              s2.procs[n].generation !in s2.world.timers
    ensures s.stopAll.None? && s.procs[n].life.Running? && s2.procs[n].life.Exited? && s2.procs[n].life.why == Exhausted ==>
              s2.procs[n].generation !in s2.world.timers
  {
    hide Follows, HandleTick, Reachable, TasksInv, BatchInv, AutoInv, FirstLife;
    ReachableStep(s, TickStep, s2);
    Parts(s);
    Parts(s2);
    TickIs(s, s2);
    OwnTimer(s2, n);
    if s.procs[n].life.Running? { GivenUpHasNoTimer(s, n); }
  }

  lemma TickIs(s: State, s2: State)
    requires Follows(s, TickStep, s2)
    ensures s2 == HandleTick(s)
  {
    hide HandleTick;
  }

  lemma OwnTimer(s: State, n: string)
    requires CoreInv(s) && TimersInv(s) && n in s.procs
    ensures AwaitsTimer(s.procs[n].life) ==>
              s.procs[n].generation in s.world.timers && s.world.timers[s.procs[n].generation] == n
    ensures TimerNotYetSet(s.procs[n].life) ==> s.procs[n].generation !in s.world.timers
  {
    assert RecordOk(s, n);
  }

  lemma TickTimersFrom(s: State, g: nat)
    requires g in HandleTick(s).world.timers && g !in s.world.timers
    ensures s.stopAll.None? && g in s.world.issued && s.world.issued[g] in s.procs
    ensures s.procs[s.world.issued[g]].generation == g
    ensures Restartable(Observed(s.procs[s.world.issued[g]], s.world.exits))
  {
    hide HandleTick, Restartable;
    TickParts(s);
    var seen, n := Refresh(s), s.world.issued[g];
    assert g in NewTimers(seen) && GetsTimer(seen, g);
    assert Observed(s.procs[n], s.world.exits).generation == s.procs[n].generation;
  }

  lemma RestartableIsKept(p: ManagedProcess)
    requires Restartable(p)
    ensures Scheduled(p).life.Exited? && Scheduled(p).life.why == Natural
  {
  }

  lemma GivenUpHasNoTimer(s: State, n: string)
    requires CoreInv(s) && TimersInv(s) && n in s.procs && s.procs[n].life.Running?
    ensures n in HandleTick(s).procs
    ensures HandleTick(s).procs[n].life.Exited? && HandleTick(s).procs[n].life.why == Exhausted ==>
              HandleTick(s).procs[n].generation !in HandleTick(s).world.timers
  {
    hide HandleTick, Restartable, Scheduled, Observed, CoreInv, TimersInv, RecordOk;
    TickTable(s, n);
    OwnTimer(s, n);
    var p, g := Observed(s.procs[n], s.world.exits), s.procs[n].generation;
    TickGenerations(s, n);
    if g in HandleTick(s).world.timers {
      TickTimersFrom(s, g);
      assert s.world.issued[g] == n by { IssuedToItself(s, n); }
      RestartableIsKept(p);
    }
  }

  lemma IssuedToItself(s: State, n: string)
    requires CoreInv(s) && n in s.procs
    ensures s.procs[n].generation in s.world.issued && s.world.issued[s.procs[n].generation] == n
  {
    assert RecordOk(s, n);
  }

  lemma TickGenerations(s: State, n: string)
    requires n in s.procs
    ensures Observed(s.procs[n], s.world.exits).generation == s.procs[n].generation
    ensures Scheduled(Observed(s.procs[n], s.world.exits)).generation == s.procs[n].generation
  {
  }

  // --- Timers and watchers --------------------------------------------------------------------------

  // This record still waits for the timer of generation `g`.
  predicate WaitsFor(procs: Table, n: string, g: nat) {
    n in procs && procs[n].generation == g && procs[n].life.Exited? && procs[n].life.why == Natural && procs[n].life.restartTimer
  }

  lemma BeginningBegins(s: State, n: string, next: AfterStop, waiters: seq<Waiter>, count: nat)
    requires n in s.procs && s.procs[n].name == n && !s.procs[n].life.Stopping?
    ensures var s2 := BeginStop(s, n, next, waiters, count);
            s2.procs.Keys == s.procs.Keys && (forall m :: m in s.procs && m != n ==> s2.procs[m] == s.procs[m])
            && Begun(s, s.procs[n], s2, next, waiters, count)
  {
  }

  lemma AutoRestartTaken(s: State, g: nat, n: string)
    requires CoreInv(s) && TimersInv(s) && BatchInv(s) && g in s.world.timers && WaitsFor(s.procs, n, g)
    ensures var s2 := HandleAutoRestart(s, g);
            s2.procs.Keys == s.procs.Keys && (forall m :: m in s.procs && m != n ==> s2.procs[m] == s.procs[m])
            && Begun(s, s.procs[n], s2, Respawn(Auto), [], s.procs[n].restartCount + 1)
  {
    assert RecordOk(s, n) && TimerWanted(s, g, n);
    hide HandleAutoRestart, FindKey, BatchInv, CoreInv, TimersInv, BeginStop;
    AutoRestartActs(s, g);
    WantedTimer(s, g, n);
    BeginningBegins(LogAuto(TakeTimer(s, g), g), n, Respawn(Auto), [], s.procs[n].restartCount + 1);
  }

  lemma AutoRestartDropped(s: State, g: nat)
    requires CoreInv(s) && TimersInv(s) && BatchInv(s) && g in s.world.timers && forall m :: !WaitsFor(s.procs, m, g)
    ensures HandleAutoRestart(s, g) == s.(world := s.world.(timers := s.world.timers - {g}))
  {
    hide HandleAutoRestart, FindKey, BatchInv, TimersInv;
    AutoRestartActs(s, g);
    forall m ensures !TimerWanted(s, g, m) {
      assert !WaitsFor(s.procs, m, g);
      if m in s.procs { assert RecordOk(s, m); }
    }
  }

  // A timer that is still waited for uses one of the record's restarts up and starts to tear down
  // what is left of its exit; any other does nothing.
  lemma AutoRestartOutcome(s: State, g: nat, s2: State, n: string)
    requires Reachable(s) && Follows(s, AutoRestartStep(g), s2)
    ensures WaitsFor(s.procs, n, g) ==>
              s2.procs.Keys == s.procs.Keys && (forall m :: m in s.procs && m != n ==> s2.procs[m] == s.procs[m])
              && Begun(s, s.procs[n], s2, Respawn(Auto), [], s.procs[n].restartCount + 1) && KeepsWaiting(s, s2)
    ensures (forall m :: !WaitsFor(s.procs, m, g)) ==> s2 == s.(world := s.world.(timers := s.world.timers - {g}))
  {
    hide Follows, Reachable, HandleAutoRestart, CoreInv, TasksInv, TimersInv, BatchInv, WaitsFor;
    Parts(s);
    AutoRestartIs(s, g, s2);
    if WaitsFor(s.procs, n, g) { AutoRestartTaken(s, g, n); }
    if forall m :: !WaitsFor(s.procs, m, g) { AutoRestartDropped(s, g); }
  }

  lemma AutoRestartIs(s: State, g: nat, s2: State)
    requires Follows(s, AutoRestartStep(g), s2)
    ensures g in s.world.timers && s2 == HandleAutoRestart(s, g) && KeepsWaiting(s, s2)
  {
    hide FindKey;
  }

  // This record is of generation `g` and neither being stopped nor parked by hand.
  predicate Watched(procs: Table, n: string, g: nat) {
    n in procs && procs[n].generation == g && !procs[n].life.Stopping? && !(procs[n].life.Exited? && procs[n].life.why == ManualStop)
  }

  lemma WatchTaken(s: State, g: nat, n: string)
    requires CoreInv(s) && g in s.world.issued && s.stopAll.None? && Watched(s.procs, n, g)
    ensures var s2 := HandleWatchRestart(s, g);
            s2.procs.Keys == s.procs.Keys && (forall m :: m in s.procs && m != n ==> s2.procs[m] == s.procs[m])
            && Begun(s, s.procs[n], s2, Respawn(Watch), [], 0) && KeepsWaiting(s, s2)
  {
    assert RecordOk(s, n);
    FindKeySound(s.procs, n);
    hide FindKey, CoreInv, BeginStop;
    BeginningBegins(LogReset(s, n), n, Respawn(Watch), [], 0);
  }

  lemma WatchDropped(s: State, g: nat)
    requires CoreInv(s) && g in s.world.issued && (s.stopAll.Some? || forall m :: !Watched(s.procs, m, g))
    ensures HandleWatchRestart(s, g) == s
  {
    var found := FindKey(s.procs, s.world.issued[g]);
    FindKeySound(s.procs, s.world.issued[g]);
    hide FindKey;
    if s.stopAll.None? && found.Some? { assert !Watched(s.procs, found.value, g); }
  }

  // A file change for a generation that is not being stopped nor parked by hand gives its budget
  // back and starts to tear it down; any other does nothing.
  lemma WatchRestartOutcome(s: State, g: nat, s2: State, n: string)
    requires Reachable(s) && Follows(s, WatchRestartStep(g), s2)
    ensures s.stopAll.None? && Watched(s.procs, n, g) ==>
              s2.procs.Keys == s.procs.Keys && (forall m :: m in s.procs && m != n ==> s2.procs[m] == s.procs[m])
              && Begun(s, s.procs[n], s2, Respawn(Watch), [], 0) && KeepsWaiting(s, s2)
    ensures s.stopAll.Some? || (forall m :: !Watched(s.procs, m, g)) ==> s2 == s
  {
    hide Follows, Reachable, HandleWatchRestart, CoreInv, TasksInv, TimersInv, BatchInv, Watched;
    Parts(s);
    WatchIs(s, g, s2);
    if s.stopAll.None? && Watched(s.procs, n, g) { WatchTaken(s, g, n); }
    if s.stopAll.Some? || forall m :: !Watched(s.procs, m, g) { WatchDropped(s, g); }
  }

  lemma WatchIs(s: State, g: nat, s2: State)
    requires Follows(s, WatchRestartStep(g), s2)
    ensures g in s.world.issued && s2 == HandleWatchRestart(s, g)
  {
    hide HandleWatchRestart;
  }

  // --- Stop-all -----------------------------------------------------------------------------------------

  // Something of this record is left for a stop-all to wait for.
  predicate ToStop(l: Life) {
    match l
    case Running(_) => true
    case Exited(_, _, zombie, _) => zombie.Some?
    case Stopping(_, _, _) => true
  }

  // `p` after a stop-all has opened: being parked if there is anything to stop, with the waiters it had.
  predicate Parked(p: ManagedProcess, q: ManagedProcess) {
    match p.life
    case Running(i) => q == p.(life := Stopping(None, Park, []))
    case Exited(code, _, Some(i), _) => q == p.(life := Stopping(Some(code), Park, []))
    case Exited(_, _, None, _) => q == p
    case Stopping(exit, _, waiters) => q == p.(life := Stopping(exit, Park, waiters))
  }

  // The teardown `p` needs, if it is not being torn down already.
  predicate TornDown(before: map<nat, Teardown>, p: ManagedProcess, tasks: map<nat, Teardown>) {
    match p.life
    case Running(i) => p.generation in tasks && tasks[p.generation] == Teardown(p.name, Some(i), None, Started)
    case Exited(code, _, Some(i), _) =>
      p.generation in tasks && tasks[p.generation] == Teardown(p.name, Some(i), Some(code), Started)
    case Exited(_, _, None, _) => true
    case Stopping(_, _, _) =>
      p.generation in before && p.generation in tasks && tasks[p.generation] == before[p.generation]
  }

  lemma OpeningParks(s: State, r: ReplyId, n: string)
    requires CoreInv(s) && TasksInv(s) && n in s.procs
    ensures var s2 := OpenBatch(Refresh(s), r);
            n in s2.procs && Parked(Observed(s.procs[n], s.world.exits), s2.procs[n])
            && TornDown(s.world.tasks, Observed(s.procs[n], s.world.exits), s2.world.tasks)
            && (n in s2.stopAll.value.remaining <==> ToStop(s.procs[n].life))
  {
    assert RecordOk(s, n);
    var s1, g := Refresh(s), s.procs[n].generation;
    assert s1.procs[n].generation == g && s1.procs[n].name == n;
    assert g in StopAllTasks(s1) <==> s1.procs[n].life.NeedsTeardown();
  }

  lemma StopAllIs(s: State, s2: State)
    requires Follows(s, StopAllStep, s2)
    ensures s2 == HandleStopAll(Arrive(s), s.world.nextReply)
  {
    hide HandleStopAll;
  }

  // A second stop-all joins the first. Otherwise every record is parked or starts to be and is
  // waited for while there is anything of it to stop; with nothing to stop at all the table is
  // cleared and the answer given at once.
  lemma StopAllOutcome(s: State, s2: State, n: string)
    requires Reachable(s) && Follows(s, StopAllStep, s2)
    ensures s.stopAll.Some? ==>
              s2.procs == s.procs && s2.world.tasks == s.world.tasks && KeepsWaiting(s, s2)
              && s2.stopAll == Some(s.stopAll.value.(replies := s.stopAll.value.replies + [s.world.nextReply]))
    ensures s.stopAll.None? && (forall m :: m in s.procs ==> !ToStop(s.procs[m].life)) ==>
              s2.procs == map[] && s2.stopAll.None? && Answers(s, s2, s.world.nextReply, AllStopped)
    ensures s.stopAll.None? && n in s.procs && (exists m :: m in s.procs && ToStop(s.procs[m].life)) ==>
              KeepsWaiting(s, s2) && s2.stopAll.Some? && s2.stopAll.value.replies == [s.world.nextReply]
              && n in s2.procs && Parked(Observed(s.procs[n], s.world.exits), s2.procs[n])
              && TornDown(s.world.tasks, Observed(s.procs[n], s.world.exits), s2.world.tasks)
              && (n in s2.stopAll.value.remaining <==> ToStop(s.procs[n].life))
  {
    hide Follows, Reachable, CoreInv, TasksInv, TimersInv, BatchInv, Refresh, OpenBatch, RunningPorts, Parked, TornDown, ToStop, HandleStopAll;
    Parts(s);
    StopAllIs(s, s2);
    var a, r := Arrive(s), s.world.nextReply;
    ArriveParts(s);
    if s.stopAll.Some? {
      StopAllJoins(a, r);
    } else {
      OpeningStates(a, r);
      var batch := OpenBatch(Refresh(a), r);
      forall m | m in a.procs ensures m in batch.stopAll.value.remaining <==> ToStop(a.procs[m].life) {
        OpeningParks(a, r, m);
      }
      if n in s.procs { OpeningParks(a, r, n); }
      StopAllOpens(a, r);
    }
  }

  lemma ArriveParts(s: State)
    requires CoreInv(s) && TasksInv(s)
    ensures CoreInv(Arrive(s)) && TasksInv(Arrive(s))
  {
    assert forall n :: n in s.procs ==> RecordOk(s, n);
    assert forall g :: g in s.world.tasks ==> TaskOk(s, g);
  }

  lemma StopAllJoins(s: State, r: ReplyId)
    requires s.stopAll.Some?
    ensures HandleStopAll(s, r) == s.(stopAll := Some(s.stopAll.value.(replies := s.stopAll.value.replies + [r])))
  {
  }

  lemma OpeningStates(s: State, r: ReplyId)
    ensures var s2 := OpenBatch(Refresh(s), r);
            s2.stopAll.Some? && s2.stopAll.value.replies == [r] && s2.world.answers == s.world.answers
            && s2.stopAll.value.remaining <= s.procs.Keys
  {
  }

  lemma StopAllOpens(s: State, r: ReplyId)
    requires s.stopAll.None?
    ensures var s1, s2 := OpenBatch(Refresh(s), r), HandleStopAll(s, r);
            s1.stopAll.Some? && s1.stopAll.value.replies == [r] && s1.world.answers == s.world.answers
            && (s1.stopAll.value.remaining != {} ==> s2.procs == s1.procs && s2.stopAll == s1.stopAll && s2.world == s1.world)
            && (s1.stopAll.value.remaining == {} ==>
                  s2.procs == map[] && s2.stopAll.None? && s2.world.answers == s.world.answers + [Answer(r, AllStopped)])
  {
    hide Refresh, ParkAll, StopAllTasks, Covered, RunningPorts;
    RefreshKeepsAnswers(s);
    assert BatchAnswers([r]) == [Answer(r, AllStopped)];
  }

  lemma RefreshKeepsAnswers(s: State)
    ensures Refresh(s).world == s.world && Refresh(s).stopAll == s.stopAll
  {
  }

  // --- Spawn ----------------------------------------------------------------------------------------------

  // The name could lead a log out of its directory.
  predicate Escapes(name: string) {
    '/' in name || '\\' in name || '\0' in name || exists i :: 0 <= i < |name| - 1 && name[i] == '.' == name[i + 1]
  }

  // One part of a host name: letters in lower case, digits and inner hyphens, at most 63.
  predicate HostLabel(name: string) {
    1 <= |name| <= 63 && name[0] != '-' && name[|name| - 1] != '-'
    && forall i :: 0 <= i < |name| ==> 'a' <= name[i] <= 'z' || '0' <= name[i] <= '9' || name[i] == '-'
  }

  predicate BadName(s: State, name: string) { Escapes(name) || (s.proxyEnabled && !HostLabel(name)) }

  lemma NameChecks(name: string)
    ensures UnsafeName(name) <==> Escapes(name)
    ensures DnsLabel(name) <==> HostLabel(name)
  {
    if DnsLabel(name) { assert forall i :: 0 <= i < |name| ==> name[i] in name; }
  }

  // A port of the automatic range that no running or stopping record has and that can be bound.
  ghost predicate FreePort(s: State, bindable: set<nat>, port: nat) {
    4000 <= port <= 4999 && port in bindable
    && forall m :: m in s.procs && s.procs[m].port == Some(port) ==> s.procs[m].life.Exited?
  }

  // Walking up from `cursor`, and on from the bottom of the range, `p` comes no later than `q`.
  predicate NoLater(cursor: nat, p: nat, q: nat) {
    if cursor <= p then q < cursor || p <= q else q < cursor && p <= q
  }

  ghost predicate FirstPort(s: State, bindable: set<nat>, port: nat) {
    FreePort(s, bindable, port) && forall q :: FreePort(s, bindable, q) ==> NoLater(s.nextAutoPort, port, q)
  }

  lemma FreePortIs(s: State, bindable: set<nat>, port: nat)
    ensures PortAllocation.Free(port, HeldPorts(s.procs), bindable) <==> FreePort(s, bindable, port)
  {
    if port in HeldPorts(s.procs) {
      var m :| m in s.procs && s.procs[m].life.HoldsPort() && s.procs[m].port.Some? && s.procs[m].port.value == port;
      assert s.procs[m].port == Some(port);
    }
    if m :| m in s.procs && s.procs[m].port == Some(port) && !s.procs[m].life.Exited? {
      assert s.procs[m].life.HoldsPort();
      assert s.procs[m].port.value in HeldPorts(s.procs);
    }
  }

  lemma ChoiceIsFirstPort(s: State, bindable: set<nat>)
    requires PortAllocation.InRange(s.nextAutoPort)
    ensures var choice := PortAllocation.Choice(s.nextAutoPort, HeldPorts(s.procs), bindable);
            if choice.Some? then FirstPort(s, bindable, choice.value) && PortAllocation.InRange(choice.value)
            else forall q :: !FreePort(s, bindable, q)
  {
    var cursor, held := s.nextAutoPort, HeldPorts(s.procs);
    var choice := PortAllocation.Choice(cursor, held, bindable);
    forall q: nat ensures PortAllocation.Free(q, held, bindable) <==> FreePort(s, bindable, q) {
      FreePortIs(s, bindable, q);
    }
    if choice.Some? {
      forall q | FreePort(s, bindable, q) ensures NoLater(cursor, choice.value, q) {
        assert PortAllocation.Free(q, held, bindable);
        assert PortAllocation.Distance(cursor, choice.value) <= PortAllocation.Distance(cursor, q);
      }
    } else if q :| FreePort(s, bindable, q) {
      PortAllocation.SomeFirstFree(cursor, held, bindable, q);
    }
  }

  // What a spawn is answered and what it adds to the table; `port` is the one automatic port, if
  // one was looked for and found. A port that is asked for is taken as it is, also with the proxy on.
  ghost predicate SpawnDone(s: State, r: ReplyId, req: SpawnRequest, port: Option<nat>, s2: State) {
    var id := IdString(s.nextId);
    var n, given := req.name.GetOr(id), if req.port.Some? then req.port else port;
    if BadName(s, n) then Answers(s, s2, r, Refused(InvalidName)) && s2.procs == s.procs
    else if req.port.None? && s.proxyEnabled && port.None? then Answers(s, s2, r, Refused(NoFreePort)) && s2.procs == s.procs
    else if n in s.procs then Answers(s, s2, r, Refused(NameTaken)) && s2.procs == s.procs
    else if !req.ok then Answers(s, s2, r, Refused(CannotSpawn)) && s2.procs == s.procs
    else
      Answers(s, s2, r, RunOk(n, id, given))
      && s2.procs == s.procs[n := ManagedProcess(n, id, given, req.policy, 0, s.nextGeneration + 1, Running(s.world.nextInc))]
  }

  // The search for the next port goes on just after the one found, whether or not the spawn succeeds.
  predicate CursorMoved(s: State, req: SpawnRequest, port: Option<nat>, s2: State) {
    s2.nextAutoPort == if port.None? || BadName(s, req.name.GetOr(IdString(s.nextId))) then s.nextAutoPort
                       else if port.value == 4999 then 4000 else port.value + 1
  }

  // The port a request resolves to, given the one found.
  lemma Resolved(s: State, req: SpawnRequest) returns (port: Option<nat>)
    requires PortAllocation.InRange(s.nextAutoPort)
    ensures ResolvePort(s, req) ==
              if req.port.Some? then Some(req.port)
              else if s.proxyEnabled then (if port.Some? then Some(port) else None)
              else Some(None)
    ensures port.Some? ==> req.port.None? && s.proxyEnabled && FirstPort(s, req.bindable, port.value)
    ensures req.port.None? && s.proxyEnabled && port.None? ==> forall q :: !FreePort(s, req.bindable, q)
    ensures var s2 := AdvanceCursor(s, req, ResolvePort(s, req));
            s2 == s.(nextAutoPort := s2.nextAutoPort)
            && s2.nextAutoPort == if port.None? then s.nextAutoPort else if port.value == 4999 then 4000 else port.value + 1
  {
    hide FirstPort, FreePort, PortAllocation.Choice, HeldPorts;
    ChoiceIsFirstPort(s, req.bindable);
    port := if req.port.None? && s.proxyEnabled then PortAllocation.Choice(s.nextAutoPort, HeldPorts(s.procs), req.bindable) else None;
  }

  lemma SpawnEffect(s: State, r: ReplyId, req: SpawnRequest) returns (port: Option<nat>)
    requires PortAllocation.InRange(s.nextAutoPort) && s.stopAll.None?
    ensures var s2 := HandleSpawn(s, r, req);
            SpawnDone(s, r, req, port, s2) && s2.nextId == s.nextId + 1 && s2.world.tasks == s.world.tasks
            && CursorMoved(s, req, port, s2)
    ensures port.Some? ==> req.port.None? && s.proxyEnabled && FirstPort(s, req.bindable, port.value)
    ensures req.port.None? && s.proxyEnabled && port.None? ==> forall q :: !FreePort(s, req.bindable, q)
  {
    hide FirstPort, FreePort, UnsafeName, DnsLabel, Escapes, HostLabel, RunningPorts, ResolvePort, AdvanceCursor, IdString;
    NameChecks(req.name.GetOr(IdString(s.nextId)));
    var counted := s.(nextId := s.nextId + 1);
    port := Resolved(counted, req);
    PortsUncounted(s, counted, req.bindable);
  }

  lemma PortsUncounted(s: State, s1: State, bindable: set<nat>)
    requires s1.procs == s.procs && s1.nextAutoPort == s.nextAutoPort
    ensures forall q :: FreePort(s1, bindable, q) <==> FreePort(s, bindable, q)
    ensures forall q :: FirstPort(s1, bindable, q) <==> FirstPort(s, bindable, q)
  {
    assert forall q :: FreePort(s1, bindable, q) <==> FreePort(s, bindable, q);
  }

  // A name that is unsafe, or with the proxy on no host label, is refused first, then for want of
  // a port, then a name in use, then a command that does not start. Otherwise there is one record
  // more, with the next id and a fresh generation and incarnation. An id is used up in any case.
  lemma SpawnOutcome(s: State, req: SpawnRequest, s2: State) returns (port: Option<nat>)
    requires Reachable(s) && Follows(s, SpawnStep(req), s2)
    ensures s.stopAll.Some? ==> Answers(s, s2, s.world.nextReply, Refused(StopAllInProgress)) && s2.procs == s.procs && s2.nextId == s.nextId
    ensures s.stopAll.None? ==>
              SpawnDone(s, s.world.nextReply, req, port, s2) && s2.nextId == s.nextId + 1 && s2.world.tasks == s.world.tasks
              && CursorMoved(s, req, port, s2)
    ensures port.Some? ==> req.port.None? && s.proxyEnabled && FirstPort(s, req.bindable, port.value)
    ensures s.stopAll.None? && req.port.None? && s.proxyEnabled && port.None? ==> forall q :: !FreePort(s, req.bindable, q)
  {
    hide Reachable, HandleSpawn, SpawnDone, CursorMoved, FirstPort, FreePort, Follows;
    SpawnIs(s, req, s2);
    port := None;
    if s.stopAll.Some? {
      SpawnRefused(Arrive(s), s.world.nextReply, req);
    } else {
      port := SpawnEffect(Arrive(s), s.world.nextReply, req);
      SpawnUnarrived(s, s.world.nextReply, req, port, s2);
      PortsUncounted(s, Arrive(s), req.bindable);
    }
  }

  lemma SpawnIs(s: State, req: SpawnRequest, s2: State)
    requires Follows(s, SpawnStep(req), s2)
    ensures PortAllocation.InRange(s.nextAutoPort) && s2 == HandleSpawn(Arrive(s), s.world.nextReply, req)
  {
    hide HandleSpawn;
  }

  lemma SpawnRefused(s: State, r: ReplyId, req: SpawnRequest)
    requires s.stopAll.Some? && PortAllocation.InRange(s.nextAutoPort)
    ensures HandleSpawn(s, r, req) == Reply(s, r, Refused(StopAllInProgress))
  {
  }

  lemma SpawnUnarrived(s: State, r: ReplyId, req: SpawnRequest, port: Option<nat>, s2: State)
    ensures SpawnDone(Arrive(s), r, req, port, s2) <==> SpawnDone(s, r, req, port, s2)
    ensures CursorMoved(Arrive(s), req, port, s2) <==> CursorMoved(s, req, port, s2)
  {
  }

  // --- Queries ---------------------------------------------------------------------------------------------

  // How a record is reported: running while its leader is not known to have exited, failed once
  // it is given up on or could not be started, and otherwise exited, with the code of its leader.
  predicate ReportedAs(p: ManagedProcess, info: ProcessInfo) {
    match p.life
    case Running(_) => info == ProcessInfo(StateRunning, None, p.port)
    case Stopping(None, _, _) => info == ProcessInfo(StateRunning, None, p.port)
    case Stopping(Some(code), _, _) => info == ProcessInfo(StateExited, code, p.port)
    case Exited(code, Exhausted, _, _) => info == ProcessInfo(StateFailed, code, p.port)
    case Exited(code, SpawnFailed, _, _) => info == ProcessInfo(StateFailed, code, p.port)
    case Exited(code, Natural, _, _) => info == ProcessInfo(StateExited, code, p.port)
    case Exited(code, ManualStop, _, _) => info == ProcessInfo(StateExited, code, p.port)
  }

  lemma InfoReports(p: ManagedProcess)
    ensures ReportedAs(p, Info(p))
  {
  }

  lemma StatusEffect(s: State, r: ReplyId) returns (infos: map<string, ProcessInfo>)
    ensures Answers(s, HandleStatus(s, r), r, StatusReport(infos)) && infos.Keys == s.procs.Keys
    ensures forall n :: n in s.procs ==> ReportedAs(Observed(s.procs[n], s.world.exits), infos[n])
    ensures OthersNoticed(s, HandleStatus(s, r), {}) && HandleStatus(s, r).world.tasks == s.world.tasks
  {
    hide ReportedAs, Observed, Info, RunningPorts, Unobserved;
    infos := Infos(Refresh(s).procs);
    forall n | n in s.procs ensures ReportedAs(Observed(s.procs[n], s.world.exits), infos[n]) {
      InfoReports(Observed(s.procs[n], s.world.exits));
    }
  }

  // A status tells of every record, with the exits noticed on the way.
  lemma StatusOutcome(s: State, s2: State) returns (infos: map<string, ProcessInfo>)
    requires Follows(s, StatusStep, s2)
    ensures Answers(s, s2, s.world.nextReply, StatusReport(infos)) && infos.Keys == s.procs.Keys
    ensures forall n :: n in s.procs ==> ReportedAs(Observed(s.procs[n], s.world.exits), infos[n])
    ensures OthersNoticed(s, s2, {}) && s2.world.tasks == s.world.tasks
  {
    hide HandleStatus, Observed, ReportedAs, Follows;
    QueryIs(s, StatusStep, s2);
    infos := StatusEffect(Arrive(s), s.world.nextReply);
  }

  lemma QueryIs(s: State, step: Step, s2: State)
    requires Follows(s, step, s2)
    ensures step.StatusStep? ==> s2 == HandleStatus(Arrive(s), s.world.nextReply)
    ensures step.IsExitedStep? ==> s2 == HandleIsExited(Arrive(s), s.world.nextReply, step.target)
    ensures step.EnableProxyStep? ==> s2 == HandleEnableProxy(Arrive(s), s.world.nextReply, step.port)
  {
    hide HandleStatus, HandleIsExited, HandleEnableProxy;
  }

  // The code of a leader known to have exited; none for a running record or an unknown one.
  predicate ExitAnswered(life: Life, answer: Option<Code>) {
    match life
    case Running(_) => answer.None?
    case Stopping(exit, _, _) => answer == exit
    case Exited(code, _, _, _) => answer == Some(code)
  }

  lemma ExitEffect(s: State, r: ReplyId, target: string)
    ensures var s2, found := HandleIsExited(s, r, target), FindKey(Refresh(s).procs, target);
            OthersNoticed(s, s2, {}) && s2.world.tasks == s.world.tasks
            && (found.None? ==> Answers(s, s2, r, ExitReported(None)))
            && (found.Some? && found.value in s.procs ==>
                  exists code :: Answers(s, s2, r, ExitReported(code)) && ExitAnswered(Observed(s.procs[found.value], s.world.exits).life, code))
  {
    hide FindKey, Observed, RunningPorts;
    var found := FindKey(Refresh(s).procs, target);
    if found.Some? && found.value in s.procs {
      var life := Observed(s.procs[found.value], s.world.exits).life;
      assert ExitAnswered(life, ExitReport(life));
      assert Answers(s, HandleIsExited(s, r, target), r, ExitReported(ExitReport(life)));
    }
  }

  lemma ExitQueryOutcome(s: State, target: string, s2: State, n: string)
    requires Reachable(s) && Follows(s, IsExitedStep(target), s2)
    ensures OthersNoticed(s, s2, {}) && s2.world.tasks == s.world.tasks
    ensures (forall m :: !Means(s.procs, target, m)) ==> Answers(s, s2, s.world.nextReply, ExitReported(None))
    ensures Means(s.procs, target, n) ==>
              exists code :: Answers(s, s2, s.world.nextReply, ExitReported(code))
                             && ExitAnswered(Observed(s.procs[n], s.world.exits).life, code)
  {
    hide Reachable, Follows, HandleIsExited, FindKey, Observed, ObserveAll, Refresh, CoreInv, TasksInv, TimersInv, BatchInv, ExitAnswered;
    Parts(s);
    QueryIs(s, IsExitedStep(target), s2);
    SameTable(s);
    FindOrNone(s, target);
    MeansFound(s, target, n);
    ExitEffect(Arrive(s), s.world.nextReply, target);
  }

  // The proxy is turned on once, on the port given first.
  lemma EnableProxyOutcome(s: State, port: nat, s2: State)
    requires Follows(s, EnableProxyStep(port), s2)
    ensures s2.procs == s.procs && s2.world.tasks == s.world.tasks
    ensures if s.proxyPort.Some? then Answers(s, s2, s.world.nextReply, ProxyPort(s.proxyPort)) && s2.proxyPort == s.proxyPort && s2.proxyEnabled == s.proxyEnabled
            else Answers(s, s2, s.world.nextReply, ProxyPort(None)) && s2.proxyPort == Some(port) && s2.proxyEnabled
  {
    hide Follows, RunningPorts;
    QueryIs(s, EnableProxyStep(port), s2);
  }

  // --- Effects of a teardown ------------------------------------------------------------------------------

  // The code a teardown reports is that of the exit seen first: before it began, while it waited,
  // or by the final wait; a leader that had to be killed, or was never seen to exit, counts as -9.
  predicate CodeReported(seen: Option<Code>, reaped: Option<Code>, code: Code) {
    match (seen, reaped)
    case (Some(first), _) => code == first
    case (None, Some(Some(exit))) => code == Some(exit)
    case (None, Some(None)) => code == Some(-9)
    case (None, None) => code == Some(-9)
  }

  // Each effect moves one teardown on, sends its one signal, and touches no record.
  lemma EffectOutcome(s: State, step: Step, s2: State)
    requires Follows(s, step, s2) && (step.TermStep? || step.PollStep? || step.KillStep? || step.ReapStep?)
    ensures step.generation in s.world.tasks && s.world.tasks[step.generation].inc.Some?
    ensures s2.procs == s.procs && s2.stopAll == s.stopAll && s2.published == s.published && KeepsWaiting(s, s2)
    ensures s2.world.tasks.Keys == s.world.tasks.Keys
    ensures forall h :: h in s.world.tasks && h != step.generation ==> s2.world.tasks[h] == s.world.tasks[h]
    ensures var t, t2, i := s.world.tasks[step.generation], s2.world.tasks[step.generation], s.world.tasks[step.generation].inc.value;
            match step
            case TermStep(_) => t2 == t.(phase := Terminated) && s2.world.signals == s.world.signals + [SignalEvent(i, Term)]
            case PollStep(_) =>
              t.leaderExit.None? && t2 == t.(leaderExit := if i in s.world.exits then Some(s.world.exits[i]) else None)
              && s2.world.signals == s.world.signals
            case KillStep(_) => t2 == t.(phase := Killed) && s2.world.signals == s.world.signals + [SignalEvent(i, Kill)]
            case ReapStep(_, capped) =>
              t2.phase.Reported? && t2 == t.(phase := t2.phase) && s2.world.signals == s.world.signals + [SignalEvent(i, Reap)]
              && (!capped ==> i in s.world.exits)
              && CodeReported(t.leaderExit, if capped then None else Some(s.world.exits[i]), t2.phase.code)
            case _ => true
  {
    hide HandleSpawn, HandleStop, HandleRestart, HandleStopAll, HandleStatus, HandleIsExited;
    hide HandleEnableProxy, HandleTick, HandleAutoRestart, HandleWatchRestart, HandleStopFinished;
  }

  // --- Routes ---------------------------------------------------------------------------------------------

  // The proxy may reach the record: its leader is not known to have exited and it has this port.
  predicate Routed(p: ManagedProcess, port: nat) {
    p.port == Some(port) && (p.life.Running? || (p.life.Stopping? && p.life.leaderExit.None?))
  }

  // In every reachable state each record that can be reached is published under its port; right
  // after a step that publishes, nothing else is.
  lemma RoutesOutcome(s: State, n: string, port: nat)
    requires Reachable(s)
    ensures n in s.procs && Routed(s.procs[n], port) ==> n in s.published && s.published[n] == port
    ensures s.published == RunningPorts(s.procs) ==>
              (n in s.published && s.published[n] == port <==> n in s.procs && Routed(s.procs[n], port))
  {
    ReachableSound(s);
    assert n in s.procs && Routed(s.procs[n], port) <==> n in RunningPorts(s.procs) && RunningPorts(s.procs)[n] == port;
  }
}
