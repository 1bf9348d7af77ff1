/** What a single step may do to a record: no record is stopped, restarted, respawned or
    dropped unless the step asks for exactly that. */
module SupervisorMoves {
  import opened Options
  import opened Identifiers
  import opened ProcessManager
  import opened Supervisor
  import opened SupervisorInvariants
  import opened SupervisorTeardowns
  import opened SupervisorCommands
  import opened SupervisorRuns
  import PortAllocation

  ghost predicate Targets(s: State, target: string, n: string) {
    FindKey(Refresh(s).procs, target) == Some(n)
  }

  // The step asks for the record `p`, known as `n`, to be stopped with this intent.
  ghost predicate Asks(s: State, step: Step, n: string, p: ManagedProcess, next: AfterStop) {
    match next
    case Park => step.StopAllStep? || (step.StopStep? && Targets(s, step.target, n))
    case Respawn(Manual) => step.RestartStep? && Targets(s, step.target, n)
    case Respawn(Auto) => step == AutoRestartStep(p.generation) && AwaitsTimer(p.life)
    case Respawn(Watch) =>
      step == WatchRestartStep(p.generation) && !p.life.Stopping? && !(p.life.Exited? && p.life.why == ManualStop)
  }

  function CountAsked(p: ManagedProcess, next: AfterStop): nat {
    match next
    case Respawn(Auto) => p.restartCount + 1
    case Respawn(Watch) => 0
    case _ => p.restartCount
  }

  // Client commands look at the leader before they act; timers and watchers do not.
  function Seen(s: State, p: ManagedProcess, next: AfterStop): ManagedProcess {
    if next in {Respawn(Auto), Respawn(Watch)} then p else Observed(p, s.world.exits)
  }

  // A stop begins on `p`, and `q` is what it becomes.
  ghost predicate Begins(s: State, step: Step, n: string, p: ManagedProcess, q: ManagedProcess) {
    !p.life.Stopping? && q.life.Stopping? && Asks(s, step, n, p, q.life.next)
    && q == p.(restartCount := CountAsked(p, q.life.next), life := q.life)
    && q.life.leaderExit == Seen(s, p, q.life.next).life.LeaderExit()
    && (q.life.next == Park ==> Seen(s, p, Park).life.NeedsTeardown())
  }

  // The stop of `p` goes on with a new intent or one waiter more.
  ghost predicate Joins(s: State, step: Step, n: string, p: ManagedProcess, q: ManagedProcess) {
    p.life.Stopping? && q.life.Stopping? && Asks(s, step, n, p, q.life.next)
    && q == p.(life := p.life.(next := q.life.next, waiters := q.life.waiters))
    && p.life.waiters <= q.life.waiters
  }

  // The teardown of `p` ends.
  ghost predicate Ends(s: State, step: Step, p: ManagedProcess, q: ManagedProcess) {
    p.life.Stopping? && step.StopFinishedStep? && step.generation == p.generation
    && step.generation in s.world.tasks && s.world.tasks[step.generation].phase.Reported?
    && q == AfterTeardown(s, p, p.life.next, s.world.tasks[step.generation].phase.code, step.ok)
  }

  ghost predicate Allowed(s: State, step: Step, n: string, p: ManagedProcess, q: ManagedProcess) {
    q == p || q == Observed(p, s.world.exits)
    || (step.TickStep? && q == Scheduled(Observed(p, s.world.exits)))
    || Begins(s, step, n, p, q) || Joins(s, step, n, p, q) || Ends(s, step, p, q)
  }

  // Which records may come and go.
  ghost predicate AllowedAbsent(s: State, step: Step, s2: State, n: string) {
    (n in s.procs && n !in s2.procs ==> s2.procs == map[] && (step.StopAllStep? || (step.StopFinishedStep? && s.stopAll.Some?)))
    && (n !in s.procs && n in s2.procs ==>
          step.SpawnStep? && s.stopAll.None? && s2.procs[n].life == Running(s.world.nextInc)
          && s2.procs[n].restartCount == 0 && s2.procs[n].policy == step.req.policy)
  }

  ghost predicate RecordMove(s: State, step: Step, s2: State, n: string) {
    AllowedAbsent(s, step, s2, n)
    && (n in s.procs && n in s2.procs ==> Allowed(s, step, n, s.procs[n], s2.procs[n]))
  }

  lemma StopMoves(s: State, r: ReplyId, target: string, n: string)
    ensures RecordMove(s, StopStep(target), HandleStop(s, r, target), n)
  {
    FindKeySound(Refresh(s).procs, target);
  }

  lemma RestartMoves(s: State, r: ReplyId, target: string, n: string)
    ensures RecordMove(s, RestartStep(target), HandleRestart(s, r, target), n)
  {
    FindKeySound(Refresh(s).procs, target);
  }

  lemma ParkingMoves(s: State, n: string)
    requires n in s.procs
    ensures Allowed(s, StopAllStep, n, s.procs[n], ParkAll(Refresh(s).procs)[n])
  {
  }

  lemma StopAllMoves(s: State, r: ReplyId, n: string)
    ensures RecordMove(s, StopAllStep, HandleStopAll(s, r), n)
  {
    hide Allowed;
    if n in s.procs { ParkingMoves(s, n); }
    if s.stopAll.Some? && n in s.procs { SameMoves(s, StopAllStep, n); }
  }

  lemma SameMoves(s: State, step: Step, n: string)
    requires n in s.procs
    ensures Allowed(s, step, n, s.procs[n], s.procs[n])
    ensures Allowed(s, step, n, s.procs[n], Observed(s.procs[n], s.world.exits))
    ensures step.TickStep? ==> Allowed(s, step, n, s.procs[n], Scheduled(Observed(s.procs[n], s.world.exits)))
  {
  }

  lemma SpawnMoves(s: State, r: ReplyId, req: SpawnRequest, n: string)
    requires PortAllocation.InRange(s.nextAutoPort)
    ensures RecordMove(s, SpawnStep(req), HandleSpawn(s, r, req), n)
  {
    hide Allowed;
    if n in s.procs { SameMoves(s, SpawnStep(req), n); }
  }

  lemma TickMoves(s: State, n: string)
    ensures RecordMove(s, TickStep, HandleTick(s), n)
  {
    hide Allowed;
    if n in s.procs { SameMoves(s, TickStep, n); }
  }

  lemma AutoRestartMoves(s: State, g: nat, n: string)
    requires g in s.world.timers
    ensures RecordMove(s, AutoRestartStep(g), HandleAutoRestart(s, g), n)
  {
    FindKeySound(s.procs, s.world.timers[g]);
    hide FindKey, Ends, Joins;
    if n in s.procs { SameMoves(s, AutoRestartStep(g), n); }
  }

  lemma WatchRestartMoves(s: State, g: nat, n: string)
    requires g in s.world.issued
    ensures RecordMove(s, WatchRestartStep(g), HandleWatchRestart(s, g), n)
  {
    FindKeySound(s.procs, s.world.issued[g]);
  }

  lemma FinishingEnds(s: State, g: nat, ok: bool, m: string)
    requires Finishing(s, g, m)
    ensures m in Finished(s, g, m, ok).procs
    ensures Allowed(s, StopFinishedStep(g, ok), m, s.procs[m], Finished(s, g, m, ok).procs[m])
  {
    hide Begins, Joins, WaiterAnswers, RestartReply, RespawnEvents, Observed, Scheduled;
    assert Ends(s, StopFinishedStep(g, ok), s.procs[m], Finished(s, g, m, ok).procs[m]);
  }

  lemma ClosingTable(s: State, g: nat, ok: bool, m: string)
    requires Finishing(s, g, m)
    ensures var s2 := CloseBatchIfDone(Finished(s, g, m, ok));
            s2.procs == Finished(s, g, m, ok).procs || (s.stopAll.Some? && s2.procs == map[])
  {
    hide AfterTeardown, WaiterAnswers, RestartReply, RespawnEvents;
  }

  lemma StopFinishedMoves(s: State, g: nat, ok: bool, n: string)
    requires CoreInv(s) && TasksInv(s) && g in s.world.tasks && s.world.tasks[g].phase.Reported?
    ensures RecordMove(s, StopFinishedStep(g, ok), HandleStopFinished(s, g, ok), n)
  {
    StopFinishedFindsItsRecord(s, g, ok);
    hide FindKey, HandleStopFinished, RunningPorts, CoreInv, TasksInv, Allowed, Finished, CloseBatchIfDone;
    var m := s.world.tasks[g].name;
    FinishingEnds(s, g, ok, m);
    FinishedNames(s, g, m, ok);
    ClosingTable(s, g, ok, m);
    if n in s.procs { SameMoves(s, StopFinishedStep(g, ok), n); }
  }

  lemma QueryMoves(s: State, r: ReplyId, target: string, port: nat, n: string)
    ensures RecordMove(s, StatusStep, HandleStatus(s, r), n)
    ensures RecordMove(s, IsExitedStep(target), HandleIsExited(s, r, target), n)
    ensures RecordMove(s, EnableProxyStep(port), HandleEnableProxy(s, r, port), n)
  {
    hide Allowed;
    if n in s.procs {
      SameMoves(s, StatusStep, n);
      SameMoves(s, IsExitedStep(target), n);
      SameMoves(s, EnableProxyStep(port), n);
    }
  }

  lemma CommandMoves(s: State, step: Step, n: string)
    requires PortAllocation.InRange(s.nextAutoPort) && Enabled(s, step)
    requires step.SpawnStep? || step.StopStep? || step.RestartStep? || step.StopAllStep?
             || step.StatusStep? || step.IsExitedStep? || step.EnableProxyStep?
    ensures RecordMove(Arrive(s), step, Apply(s, step), n)
  {
    hide RecordMove;
    var a, r := Arrive(s), s.world.nextReply;
    match step
    case SpawnStep(req) => SpawnMoves(a, r, req, n);
    case StopStep(target) => StopMoves(a, r, target, n);
    case RestartStep(target) => RestartMoves(a, r, target, n);
    case StopAllStep => StopAllMoves(a, r, n);
    case StatusStep => QueryMoves(a, r, "", 0, n);
    case IsExitedStep(target) => QueryMoves(a, r, target, 0, n);
    case EnableProxyStep(port) => QueryMoves(a, r, "", port, n);
  }

  // `Arrive` is invisible to the records.
  lemma ArriveMoves(s: State, step: Step, s2: State, n: string)
    requires RecordMove(Arrive(s), step, s2, n)
    ensures RecordMove(s, step, s2, n)
  {
    hide FindKey, Observed, Scheduled;
  }

  // Whatever step is taken in a reachable state, each record changes only as allowed.
  lemma RecordsMove(s: State, step: Step, s2: State, n: string)
    requires Reachable(s) && Follows(s, step, s2)
    ensures RecordMove(s, step, s2, n)
  {
    ReachableSound(s);
    hide RecordMove, CoreInv, TasksInv, IncInv, RepliesInv, IntentsInv;
    match step
    case TickStep => TickMoves(s, n);
    case AutoRestartStep(g) => AutoRestartMoves(s, g, n);
    case WatchRestartStep(g) => WatchRestartMoves(s, g, n);
    case StopFinishedStep(g, ok) => StopFinishedMoves(s, g, ok, n);
    case LeaderExitsStep(_, _) => WorldMoves(s, step, n);
    case TermStep(_) => WorldMoves(s, step, n);
    case PollStep(_) => WorldMoves(s, step, n);
    case KillStep(_) => WorldMoves(s, step, n);
    case ReapStep(_, _) => WorldMoves(s, step, n);
    case _ => CommandMoves(s, step, n); ArriveMoves(s, step, Apply(s, step), n);
  }

  lemma WorldMoves(s: State, step: Step, n: string)
    requires PortAllocation.InRange(s.nextAutoPort) && Enabled(s, step)
    requires step.LeaderExitsStep? || step.TermStep? || step.PollStep? || step.KillStep? || step.ReapStep?
    ensures RecordMove(s, step, Apply(s, step), n)
  {
  }

  // --- Consequences ------------------------------------------------------------------

  lemma ReachableRecord(s: State, n: string)
    requires Reachable(s) && n in s.procs
    ensures RecordOk(s, n)
    ensures s.procs[n].life.Stopping? ==> LastWant(s.world.intents, n) == Some(s.procs[n].life.next)
    ensures s.stopAll.Some? ==> !s.procs[n].life.Running?
  {
    ReachableSound(s);
  }

  lemma ParkedAllows(s: State, step: Step, n: string, p: ManagedProcess, q: ManagedProcess)
    requires Allowed(s, step, n, p, q) && p.life.Exited? && p.life.why == ManualStop && LifeOk(p.life)
    ensures q == p || (step.RestartStep? && Targets(s, step.target, n) && q.life.Stopping? && q.life.next == Respawn(Manual))
            || (step.StopAllStep? && q.life.Stopping?)
    ensures step.StopAllStep? ==> q == p
  {
  }

  lemma ExhaustedAllows(s: State, step: Step, n: string, p: ManagedProcess, q: ManagedProcess)
    requires Allowed(s, step, n, p, q) && p.life.Exited? && p.life.why == Exhausted && LifeOk(p.life)
    ensures q != p ==>
              q.life.Stopping?
              && (q.life.next == Park
                  || (q.life.next == Respawn(Manual) && step.RestartStep? && Targets(s, step.target, n))
                  || (q.life.next == Respawn(Watch) && step == WatchRestartStep(p.generation)))
  {
  }

  // A record parked by hand stays exactly as it is until a Restart names it or a
  // stop-all clears the table.
  lemma ManualStaysParked(s: State, step: Step, s2: State, n: string)
    requires Reachable(s) && Follows(s, step, s2)
    requires n in s.procs && s.procs[n].life.Exited? && s.procs[n].life.why == ManualStop
    ensures if n in s2.procs
            then s2.procs[n] == s.procs[n]
                 || (step.RestartStep? && Targets(s, step.target, n)
                     && s2.procs[n].life.Stopping? && s2.procs[n].life.next == Respawn(Manual))
            else s2.procs == map[] && (step.StopAllStep? || s.stopAll.Some?)
  {
    hide Follows, Reachable, Allowed;
    RecordsMove(s, step, s2, n);
    ReachableRecord(s, n);
    if n in s2.procs { ParkedAllows(s, step, n, s.procs[n], s2.procs[n]); }
  }

  // A record given up on comes back only when a Restart or a file change asks for it; a
  // stop can only park it.
  lemma ExhaustedStaysDown(s: State, step: Step, s2: State, n: string)
    requires Reachable(s) && Follows(s, step, s2)
    requires n in s.procs && s.procs[n].life.Exited? && s.procs[n].life.why == Exhausted
    ensures n in s2.procs && s2.procs[n] != s.procs[n] ==>
              s2.procs[n].life.Stopping?
              && (s2.procs[n].life.next == Park
                  || (s2.procs[n].life.next == Respawn(Manual) && step.RestartStep? && Targets(s, step.target, n))
                  || (s2.procs[n].life.next == Respawn(Watch) && step == WatchRestartStep(s.procs[n].generation)))
  {
    hide Follows, Reachable, Allowed;
    RecordsMove(s, step, s2, n);
    ReachableRecord(s, n);
    if n in s2.procs { ExhaustedAllows(s, step, n, s.procs[n], s2.procs[n]); }
  }

  // A running process is left alone by everything except a stop, a restart or a file
  // change meant for it, and its own exit.
  lemma RunningIsLeftAlone(s: State, step: Step, s2: State, n: string)
    requires Reachable(s) && Follows(s, step, s2)
    requires n in s.procs && s.procs[n].life.Running? && s.procs[n].life.inc !in s.world.exits
    requires !step.StopAllStep? && forall next :: !Asks(s, step, n, s.procs[n], next)
    ensures n in s2.procs && s2.procs[n] == s.procs[n]
  {
    RecordsMove(s, step, s2, n);
    hide Follows;
    ReachableRecord(s, n);
    if step.TickStep? { assert Scheduled(s.procs[n]) == s.procs[n]; }
  }

  // A record that is being stopped leaves that state only when its own teardown reports;
  // it then is parked, running again under a new generation, or failed to start, as the
  // last accepted intent said.
  lemma StoppingEndsAsIntended(s: State, step: Step, s2: State, n: string)
    requires Reachable(s) && Follows(s, step, s2)
    requires n in s.procs && s.procs[n].life.Stopping?
    requires n in s2.procs && !s2.procs[n].life.Stopping?
    ensures var q := s2.procs[n];
            step.StopFinishedStep? && step.generation == s.procs[n].generation
            && match LastWant(s.world.intents, n)
               case Some(Park) => q.life.Exited? && q.life.why == ManualStop && q.life.zombie.None?
               case Some(Respawn(_)) =>
                 if step.ok then q.life == Running(s.world.nextInc) && q.generation == s.nextGeneration + 1
                 else q.life.Exited? && q.life.why == SpawnFailed && q.generation == s.procs[n].generation
               case None => false
  {
    RecordsMove(s, step, s2, n);
    hide Follows;
    ReachableRecord(s, n);
  }

  lemma StopAtOnce(s: State, n: string)
    requires n in s.procs && s.procs[n].life.Exited? && !s.procs[n].life.NeedsTeardown()
    ensures var s2 := HandleStop(Arrive(s), s.world.nextReply, n);
            s2 == Reply(Refresh(Arrive(s)), s.world.nextReply, Stopped(n)) && n in s2.procs && s2.procs[n] == s.procs[n]
            && s2.world.issued == s.world.issued && s2.stopAll == s.stopAll
  {
    FindKeySound(Refresh(Arrive(s)).procs, n);
  }

  lemma WatchOnExited(s: State, n: string)
    requires s.stopAll.None? && n in s.procs && s.procs[n].life.Exited?
    requires s.procs[n].generation in s.world.issued && s.world.issued[s.procs[n].generation] == n
    ensures var s2 := HandleWatchRestart(s, s.procs[n].generation);
            if s.procs[n].life.why == ManualStop then s2 == s
            else n in s2.procs && s2.procs[n].life.Stopping? && s2.procs[n].life.next == Respawn(Watch)
  {
    FindKeySound(s.procs, n);
  }

  // A stop of an exited record with nothing to tear down is answered at once. A later event
  // from a watcher of its generation then begins to start the process again if and only if the
  // record had not been parked by hand before: a record whose respawn failed comes back.
  lemma StaleWatchEvent(s: State, n: string, stopped: State)
    requires Reachable(s) && s.stopAll.None?
    requires n in s.procs && s.procs[n].life.Exited? && !s.procs[n].life.NeedsTeardown()
    requires stopped == HandleStop(Arrive(s), s.world.nextReply, n)
    ensures n in stopped.procs && stopped.procs[n] == s.procs[n]
    ensures stopped.world.answers == s.world.answers + [Answer(s.world.nextReply, Stopped(n))]
    ensures s.procs[n].generation in stopped.world.issued
    ensures var later := HandleWatchRestart(stopped, s.procs[n].generation);
            n in later.procs
            && (later.procs[n].life.Stopping? && later.procs[n].life.next == Respawn(Watch) <==> s.procs[n].life.why != ManualStop)
            && (later == stopped <==> s.procs[n].life.why == ManualStop)
  {
    ReachableRecord(s, n);
    hide HandleStop, HandleWatchRestart, Reachable, FindKey;
    StopAtOnce(s, n);
    WatchOnExited(stopped, n);
  }

  // What a Restart is told, by what became of the record.
  function OutcomeReply(q: ManagedProcess): Response {
    match q.life
    case Running(_) => RunOk(q.name, q.id, q.port)
    case Exited(_, SpawnFailed, _, _) => Refused(CannotSpawn)
    case _ => Refused(SupersededByStop)
  }

  lemma TeardownAnswers(s: State, n: string, code: Code, ok: bool, k: nat)
    requires n in s.procs && s.procs[n].life.Stopping? && k < |s.procs[n].life.waiters|
    ensures var w, s2 := s.procs[n].life.waiters[k], FinishTeardown(s, n, code, ok);
            |s2.world.answers| == |s.world.answers| + |s.procs[n].life.waiters|
            && s2.world.answers[|s.world.answers| + k]
               == Answer(w.reply, if w.StopWaiter? then Stopped(n) else OutcomeReply(s2.procs[n]))
  {
  }

  lemma ClosingKeepsAnswers(s: State)
    ensures s.world.answers <= CloseBatchIfDone(s).world.answers
    ensures CloseBatchIfDone(s).procs == s.procs || (s.stopAll.Some? && CloseBatchIfDone(s).procs == map[])
  {
  }

  // A record parked by hand tells a Restart it was superseded.
  lemma ParkedReply(s: State, n: string, code: Code, ok: bool)
    requires n in s.procs && s.procs[n].life.Stopping? && s.procs[n].life.next == Park
    ensures OutcomeReply(FinishTeardown(s, n, code, ok).procs[n]) == Refused(SupersededByStop)
  {
  }

  lemma BatchParks(s: State, n: string)
    requires BatchInv(s) && s.stopAll.Some? && n in s.procs && s.procs[n].life.Stopping?
    ensures s.procs[n].life.next == Park
  {
  }

  // What a waiter for record `n` is told, given the state afterwards.
  function Told(w: Waiter, s2: State, n: string): Answer {
    Answer(w.reply, if w.StopWaiter? then Stopped(n)
                    else if n in s2.procs then OutcomeReply(s2.procs[n])
                    else Refused(SupersededByStop))
  }

  lemma ToldOnFinish(s: State, g: nat, ok: bool, n: string, k: nat)
    requires BatchInv(s) && Finishing(s, g, n) && k < |s.procs[n].life.waiters|
    ensures var s2 := Publish(CloseBatchIfDone(Finished(s, g, n, ok)));
            |s2.world.answers| > |s.world.answers| + k
            && s2.world.answers[|s.world.answers| + k] == Told(s.procs[n].life.waiters[k], s2, n)
  {
    hide FinishTeardown, CloseBatchIfDone, OutcomeReply, RunningPorts, BatchInv;
    var s0, code := TakeTask(s, g), s.world.tasks[g].phase.code;
    var s1 := FinishTeardown(s0, n, code, ok);
    ClosingKeepsAnswers(s1);
    AnswersGrow(s0, n, code, ok);
    TeardownAnswers(s0, n, code, ok, k);
    if s1.stopAll.Some? {
      BatchParks(s, n);
      ParkedReply(s0, n, code, ok);
    }
  }

  // When a teardown ends, everyone who waited for it is answered: a Stop that the process is
  // stopped, a Restart with the new process when there is one, and otherwise with the reason
  // there is none. A stop-all may have cleared the table by then.
  lemma WaitersLearnTheOutcome(s: State, g: nat, ok: bool, s2: State, n: string, k: nat)
    requires Reachable(s) && Follows(s, StopFinishedStep(g, ok), s2) && s.world.tasks[g].name == n
    ensures n in s.procs && s.procs[n].life.Stopping?
    ensures k < |s.procs[n].life.waiters| ==>
              |s2.world.answers| > |s.world.answers| + k
              && s2.world.answers[|s.world.answers| + k] == Told(s.procs[n].life.waiters[k], s2, n)
  {
    ReachableSound(s);
    StopFinishedFindsItsRecord(s, g, ok);
    hide FindKey, Reachable, Sound, Inv, HandleStopFinished, FinishTeardown, CloseBatchIfDone, Told, RunningPorts;
    if k < |s.procs[n].life.waiters| {
      BatchIsSound(s);
      ToldOnFinish(s, g, ok, n, k);
    }
  }

  lemma BatchIsSound(s: State)
    requires Sound(s)
    ensures BatchInv(s)
  {
  }

  lemma AnswersGrow(s: State, n: string, code: Code, ok: bool)
    requires n in s.procs && s.procs[n].life.Stopping?
    ensures var s2 := FinishTeardown(s, n, code, ok);
            |s2.world.answers| == |s.world.answers| + |s.procs[n].life.waiters|
            && (s2.stopAll.Some? ==> s.stopAll.Some?) && n in s2.procs
  {
  }

  // --- One timer and one teardown at a time -----------------------------------------------------

  lemma ScheduledAllows(s: State, step: Step, n: string, p: ManagedProcess, q: ManagedProcess)
    requires Allowed(s, step, n, p, q) && !AwaitsTimer(p.life) && AwaitsTimer(q.life) && LifeOk(p.life)
    ensures step.TickStep? && q.generation == p.generation && TimerNotYetSet(p.life)
  {
  }

  lemma TimersAreSound(s: State)
    requires Reachable(s)
    ensures TimersInv(s) && TasksInv(s)
  {
    ReachableSound(s);
  }

  // A record starts to wait for its restart only when no timer of its generation is in flight;
  // none is replaced or doubled.
  lemma TimerSetOnce(s: State, step: Step, s2: State, n: string)
    requires Reachable(s) && Follows(s, step, s2) && n in s.procs && n in s2.procs
    requires !AwaitsTimer(s.procs[n].life) && AwaitsTimer(s2.procs[n].life)
    ensures step.TickStep? && s.procs[n].generation !in s.world.timers
    ensures s.procs[n].generation in s2.world.timers && s2.procs[n].generation == s.procs[n].generation
  {
    hide Follows, Allowed, Reachable, AwaitsTimer, TimerNotYetSet;
    RecordsMove(s, step, s2, n);
    ReachableRecord(s, n);
    ScheduledAllows(s, step, n, s.procs[n], s2.procs[n]);
    TimersAreSound(s);
    ReachableStep(s, step, s2);
    TimersAreSound(s2);
  }

  lemma StopTimers(s: State, r: ReplyId, target: string)
    ensures HandleStop(s, r, target).world.timers == s.world.timers
  {
    FindKeySound(Refresh(s).procs, target);
    hide FindKey, RunningPorts, ObserveAll, NewTask;
  }

  lemma RestartTimers(s: State, r: ReplyId, target: string)
    ensures HandleRestart(s, r, target).world.timers == s.world.timers
  {
    FindKeySound(Refresh(s).procs, target);
    hide FindKey, RunningPorts, ObserveAll, NewTask;
  }

  lemma SpawnTimers(s: State, r: ReplyId, req: SpawnRequest)
    requires PortAllocation.InRange(s.nextAutoPort)
    ensures HandleSpawn(s, r, req).world.timers == s.world.timers
  {
    hide RunningPorts, ResolvePort, UnsafeName, DnsLabel;
  }

  lemma QueryTimers(s: State, r: ReplyId, target: string, port: nat)
    ensures HandleIsExited(s, r, target).world.timers == s.world.timers
    ensures HandleEnableProxy(s, r, port).world.timers == s.world.timers
  {
    hide FindKey, RunningPorts, ObserveAll;
  }

  lemma BatchTimers(s: State, r: ReplyId)
    ensures HandleStopAll(s, r).world.timers == s.world.timers
    ensures HandleStatus(s, r).world.timers == s.world.timers
  {
    hide RunningPorts, ObserveAll, ParkAll, StopAllTasks, Covered;
  }

  lemma MessageTimers(s: State, g: nat, ok: bool)
    ensures g in s.world.issued ==> HandleWatchRestart(s, g).world.timers == s.world.timers
    ensures g in s.world.tasks && s.world.tasks[g].phase.Reported? ==> HandleStopFinished(s, g, ok).world.timers == s.world.timers
  {
    hide FindKey, RunningPorts, AfterTeardown, WaiterAnswers, RestartReply, RespawnEvents;
  }

  lemma TickTimers(s: State)
    ensures s.world.timers.Keys <= HandleTick(s).world.timers.Keys
  {
    hide RunningPorts, ObserveAll, ScheduleAll;
  }

  lemma CommandTimers(s: State, step: Step)
    requires PortAllocation.InRange(s.nextAutoPort) && Enabled(s, step)
    requires step.SpawnStep? || step.StopStep? || step.RestartStep? || step.StopAllStep?
             || step.StatusStep? || step.IsExitedStep? || step.EnableProxyStep?
    ensures Apply(s, step).world.timers == s.world.timers
  {
    hide HandleSpawn, HandleStop, HandleRestart, HandleIsExited, HandleEnableProxy, HandleStopAll, HandleStatus;
    var a, r := Arrive(s), s.world.nextReply;
    match step
    case SpawnStep(req) => SpawnTimers(a, r, req);
    case StopStep(target) => StopTimers(a, r, target);
    case RestartStep(target) => RestartTimers(a, r, target);
    case IsExitedStep(target) => QueryTimers(a, r, target, 0);
    case EnableProxyStep(port) => QueryTimers(a, r, "", port);
    case _ => BatchTimers(a, r);
  }

  lemma WorldTimers(s: State, step: Step)
    requires PortAllocation.InRange(s.nextAutoPort) && Enabled(s, step)
    requires step.LeaderExitsStep? || step.TermStep? || step.PollStep? || step.KillStep? || step.ReapStep?
    ensures Apply(s, step).world.timers == s.world.timers
  {
    hide HandleSpawn, HandleStop, HandleRestart, HandleIsExited, HandleEnableProxy, HandleStopAll, HandleStatus;
    hide HandleWatchRestart, HandleStopFinished, HandleTick, HandleAutoRestart;
  }

  lemma TimerDelivered(s: State, g: nat)
    requires g in s.world.timers
    ensures HandleAutoRestart(s, g).world.timers == s.world.timers - {g}
  {
    hide FindKey, NewTask;
  }

  // A timer in flight stays there until it is delivered, and only the tick sets any.
  lemma TimersStay(s: State, step: Step, s2: State, g: nat)
    requires Follows(s, step, s2) && step != AutoRestartStep(g)
    ensures g in s.world.timers ==> g in s2.world.timers
    ensures g !in s.world.timers && g in s2.world.timers ==> step.TickStep?
  {
    hide HandleWatchRestart, HandleStopFinished, HandleTick, HandleAutoRestart;
    match step
    case WatchRestartStep(h) => MessageTimers(s, h, true);
    case StopFinishedStep(h, ok) => MessageTimers(s, h, ok);
    case AutoRestartStep(h) => TimerDelivered(s, h);
    case TickStep => TickTimers(s);
    case LeaderExitsStep(_, _) => WorldTimers(s, step);
    case TermStep(_) => WorldTimers(s, step);
    case PollStep(_) => WorldTimers(s, step);
    case KillStep(_) => WorldTimers(s, step);
    case ReapStep(_, _) => WorldTimers(s, step);
    case _ =>
      CommandTimers(s, step);
  }

  lemma BeginningAllows(s: State, step: Step, n: string, p: ManagedProcess, q: ManagedProcess)
    requires Allowed(s, step, n, p, q) && !p.life.Stopping? && q.life.Stopping?
    ensures q.generation == p.generation
  {
  }

  // A record's teardown starts only when none of its generation is in flight.
  lemma TeardownStartedOnce(s: State, step: Step, s2: State, n: string)
    requires Reachable(s) && Follows(s, step, s2) && n in s.procs && n in s2.procs
    requires !s.procs[n].life.Stopping? && s2.procs[n].life.Stopping?
    ensures s.procs[n].generation !in s.world.tasks && s2.procs[n].generation == s.procs[n].generation
    ensures s.procs[n].generation in s2.world.tasks && s2.world.tasks[s.procs[n].generation].name == n
  {
    hide Follows, Allowed, Reachable;
    RecordsMove(s, step, s2, n);
    ReachableRecord(s, n);
    BeginningAllows(s, step, n, s.procs[n], s2.procs[n]);
    TimersAreSound(s);
    ReachableStep(s, step, s2);
    TimersAreSound(s2);
    var g := s.procs[n].generation;
    if g in s.world.tasks {
      assert TaskOk(s, g);
      ReachableRecord(s, s.world.tasks[g].name);
    }
  }
}
