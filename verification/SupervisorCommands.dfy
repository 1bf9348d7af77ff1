/** Every command and every event keeps the supervisor's invariants. */
module SupervisorCommands {
  import opened Options
  import opened Identifiers
  import opened ProcessManager
  import opened Supervisor
  import opened SupervisorInvariants
  import opened SupervisorSteps
  import opened SupervisorTeardowns
  import PortAllocation

  lemma FindKeySound(procs: Table, target: string)
    ensures FindKey(procs, target).Some? ==> FindKey(procs, target).value in procs
    ensures target in procs ==> FindKey(procs, target) == Some(target)
  {
  }

  // An id names one record whatever order the table is walked in.
  lemma LookupUnambiguous(s: State, n: string)
    requires CoreInv(s) && n in s.procs && s.procs[n].id !in s.procs
    ensures FindKey(s.procs, s.procs[n].id) == Some(n)
  {
    var m :| m in s.procs && s.procs[m].id == s.procs[n].id;
    assert m == n;
  }

  lemma PublishKeeps(s: State, loose: Option<ReplyId>)
    requires Inv(s, loose)
    ensures Inv(Publish(s), loose)
  {
    hide CoreInv, TasksInv, TimersInv, AutoInv, BatchInv, BudgetInv, IncInv, RepliesInv, IntentsInv;
    TableStays(s, Publish(s));
    TasksStay(s, Publish(s));
    Stay(s, Publish(s));
    Settle(s, Publish(s), loose, loose, Answered(0));
  }

  // Changing nothing but counters and proxy settings.
  lemma CountersKeep(s: State, s2: State, loose: Option<ReplyId>)
    requires Inv(s, loose)
    requires s.nextId <= s2.nextId <= s.nextId + 1 && PortAllocation.InRange(s2.nextAutoPort)
    requires s2 == s.(nextId := s2.nextId, nextAutoPort := s2.nextAutoPort, proxyPort := s2.proxyPort, proxyEnabled := s2.proxyEnabled)
    ensures Inv(s2, loose)
  {
    hide CoreInv, TasksInv, TimersInv, AutoInv, BatchInv, BudgetInv, IncInv, RepliesInv, IntentsInv;
    CountersCore(s, s2);
    CountersTable(s, s2);
    TasksStay(s, s2);
    Stay(s, s2);
    Settle(s, s2, loose, loose, Answered(0));
  }

  lemma CountersTable(s: State, s2: State)
    requires TimersInv(s) && AutoInv(s) && BatchInv(s) && BudgetInv(s) && IntentsInv(s)
    requires s2.procs == s.procs && s2.world == s.world && s2.stopAll == s.stopAll
    ensures TimersInv(s2) && AutoInv(s2) && BatchInv(s2) && BudgetInv(s2) && IntentsInv(s2)
  {
    assert forall n :: n in s.procs ==> BudgetOk(s, n);
  }

  lemma CountersCore(s: State, s2: State)
    requires CoreInv(s)
    requires s.nextId <= s2.nextId <= s.nextId + 1 && PortAllocation.InRange(s2.nextAutoPort)
    requires s2.procs == s.procs && s2.nextGeneration == s.nextGeneration && s2.world.issued == s.world.issued
    ensures CoreInv(s2)
  {
    hide IdIssued;
    forall n | n in s.procs ensures RecordOk(s2, n) {
      assert RecordOk(s, n);
      if s2.nextId == s.nextId + 1 { NextIdIsFresh(s.procs[n].id, s.nextId); }
    }
  }

  // --- Commands --------------------------------------------------------------------

  lemma SpawnKeeps(s: State, r: ReplyId, req: SpawnRequest)
    requires Inv(s, Some(r)) && PortAllocation.InRange(s.nextAutoPort)
    ensures Inv(HandleSpawn(s, r, req), None)
  {
    hide TableInv, IncInv, RepliesInv, IntentsInv;
    if s.stopAll.Some? {
      ReplyKeeps(s, r, Refused(StopAllInProgress));
    } else {
      var (s1, resp) := SpawnProcess(s, req);
      SpawnProcessKeeps(s, r, req);
      PublishKeeps(s1, Some(r));
      ReplyKeeps(Publish(s1), r, resp);
    }
  }

  lemma SpawnProcessKeeps(s: State, r: ReplyId, req: SpawnRequest)
    requires Inv(s, Some(r)) && PortAllocation.InRange(s.nextAutoPort) && s.stopAll.None?
    ensures Inv(SpawnProcess(s, req).0, Some(r))
  {
    hide Inv;
    var n := req.name.GetOr(IdString(s.nextId));
    var s1 := s.(nextId := s.nextId + 1);
    CountersKeep(s, s1, Some(r));
    if !(UnsafeName(n) || (s1.proxyEnabled && !DnsLabel(n))) {
      var port := ResolvePort(s1, req);
      var s2 := AdvanceCursor(s1, req, port);
      CountersKeep(s1, s2, Some(r));
      if port.Some? && n !in s2.procs && req.ok {
        var s0 := s.(nextAutoPort := s2.nextAutoPort);
        CountersKeep(s, s0, Some(r));
        CreateKeeps(s0, n, port.value, req.policy, Some(r));
      }
    }
  }

  lemma StopKeeps(s: State, r: ReplyId, target: string)
    requires Inv(s, Some(r))
    ensures Inv(HandleStop(s, r, target), None)
  {
    hide CoreInv, TasksInv, TimersInv, AutoInv, BudgetInv, IncInv, RepliesInv, IntentsInv;
    RefreshKeeps(s, Some(r));
    var s1 := Refresh(s);
    FindKeySound(s1.procs, target);
    match FindKey(s1.procs, target)
    case None => ReplyKeeps(s1, r, NotFound(target));
    case Some(n) =>
      var p := s1.procs[n];
      if p.life.Stopping? {
        JoinStopKeeps(s1, n, Park, StopWaiter(r));
      } else if p.life.NeedsTeardown() {
        BeginStopKeeps(s1, n, Park, [StopWaiter(r)], p.restartCount, Some(r));
      } else {
        ReplyKeeps(s1, r, Stopped(n));
      }
  }

  lemma RestartKeeps(s: State, r: ReplyId, target: string)
    requires Inv(s, Some(r))
    ensures Inv(HandleRestart(s, r, target), None)
  {
    hide TableInv, IncInv, RepliesInv, IntentsInv;
    if s.stopAll.Some? {
      ReplyKeeps(s, r, Refused(StopAllInProgress));
    } else {
      RefreshKeeps(s, Some(r));
      var s1 := Refresh(s);
      FindKeySound(s1.procs, target);
      match FindKey(s1.procs, target)
      case None => ReplyKeeps(s1, r, NotFound(target));
      case Some(n) =>
        var p := s1.procs[n];
        if p.life.Stopping? {
          JoinStopKeeps(s1, n, Respawn(Manual), RestartWaiter(r));
        } else {
          BeginStopKeeps(s1, n, Respawn(Manual), [RestartWaiter(r)], p.restartCount, Some(r));
        }
    }
  }

  lemma StopAllKeeps(s: State, r: ReplyId)
    requires Inv(s, Some(r))
    ensures Inv(HandleStopAll(s, r), None)
  {
    hide Inv;
    if s.stopAll.Some? {
      PushBatchReplyKeeps(s, r);
    } else {
      RefreshKeeps(s, Some(r));
      var s1 := OpenBatch(Refresh(s), r);
      OpenBatchKeeps(Refresh(s), r);
      if s1.stopAll.value.remaining == {} { CloseBatchKeeps(s1); }
      PublishKeeps(CloseBatchIfDone(s1), None);
    }
  }

  lemma StatusKeeps(s: State, r: ReplyId)
    requires Inv(s, Some(r))
    ensures Inv(HandleStatus(s, r), None)
  {
    hide Inv;
    RefreshKeeps(s, Some(r));
    var s1 := Refresh(s);
    PublishKeeps(s1, Some(r));
    var s2 := if Unobserved(s.procs, s.world.exits) then Publish(s1) else s1;
    ReplyKeeps(s2, r, StatusReport(Infos(s2.procs)));
  }

  lemma IsExitedKeeps(s: State, r: ReplyId, target: string)
    requires Inv(s, Some(r))
    ensures Inv(HandleIsExited(s, r, target), None)
  {
    hide Inv;
    RefreshKeeps(s, Some(r));
    var s1 := Publish(Refresh(s));
    PublishKeeps(Refresh(s), Some(r));
    FindKeySound(s1.procs, target);
    var found := FindKey(s1.procs, target);
    ReplyKeeps(s1, r, ExitReported(if found.Some? then ExitReport(s1.procs[found.value].life) else None));
  }

  lemma EnableProxyKeeps(s: State, r: ReplyId, port: nat)
    requires Inv(s, Some(r)) && PortAllocation.InRange(s.nextAutoPort)
    ensures Inv(HandleEnableProxy(s, r, port), None)
  {
    hide Inv;
    var s1 := s.(proxyPort := Some(port), proxyEnabled := true);
    CountersKeep(s, s1, Some(r));
    PublishKeeps(s1, Some(r));
    ReplyKeeps(Publish(s1), r, ProxyPort(None));
    ReplyKeeps(s, r, ProxyPort(s.proxyPort));
  }

  // --- Events ------------------------------------------------------------------------

  lemma TickKeeps(s: State)
    requires Inv(s, None)
    ensures Inv(HandleTick(s), None)
  {
    hide Inv;
    RefreshKeeps(s, None);
    PublishKeeps(Refresh(s), None);
    var s1 := if Unobserved(s.procs, s.world.exits) then Publish(Refresh(s)) else Refresh(s);
    if s1.stopAll.None? {
      MarkAndTimeKeeps(s1);
      PublishKeeps(MarkAndTime(s1), None);
    }
  }

  lemma TakeTimerKeeps(s: State, g: nat)
    requires Inv(s, None)
    requires forall n :: n in s.procs && s.procs[n].generation == g ==> !AwaitsTimer(s.procs[n].life)
    ensures Inv(TakeTimer(s, g), None)
  {
    hide CoreInv, TasksInv, TimersInv, AutoInv, BatchInv, BudgetInv, IncInv, RepliesInv, IntentsInv;
    TakeTimerTimers(s, g);
    TakeTimerTable(s, g);
    Stay(s, TakeTimer(s, g));
    Settle(s, TakeTimer(s, g), None, None, Answered(0));
  }

  lemma TakeTimerTimers(s: State, g: nat)
    requires TimersInv(s)
    requires forall n :: n in s.procs && s.procs[n].generation == g ==> !AwaitsTimer(s.procs[n].life)
    ensures TimersInv(TakeTimer(s, g))
  {
  }

  lemma TakeTimerTable(s: State, g: nat)
    requires CoreInv(s) && TasksInv(s) && AutoInv(s) && BatchInv(s) && BudgetInv(s) && IntentsInv(s)
    ensures CoreInv(TakeTimer(s, g)) && TasksInv(TakeTimer(s, g)) && AutoInv(TakeTimer(s, g))
    ensures BatchInv(TakeTimer(s, g)) && BudgetInv(TakeTimer(s, g)) && IntentsInv(TakeTimer(s, g))
  {
    TasksStay(s, TakeTimer(s, g));
    assert forall n :: n in s.procs ==> RecordOk(s, n) && BudgetOk(s, n);
  }

  lemma LogAutoKeeps(s: State, g: nat)
    requires Inv(s, None) && g in s.world.issued && g !in s.world.autoRestarts
    requires forall n :: n in s.procs && s.procs[n].generation == g ==> !FirstLife(s.procs[n].life)
    ensures Inv(LogAuto(s, g), None)
  {
    var s2 := LogAuto(s, g);
    hide CoreInv, TasksInv, TimersInv, AutoInv, BatchInv, BudgetInv, IncInv, RepliesInv, IntentsInv;
    LogAutoOnce(s, g);
    LogAutoTable(s, g);
    TasksStay(s, s2);
    Stay(s, s2);
    Settle(s, s2, None, None, Answered(0));
  }

  lemma LogAutoOnce(s: State, g: nat)
    requires AutoInv(s) && g in s.world.issued && g !in s.world.autoRestarts
    requires forall n :: n in s.procs && s.procs[n].generation == g ==> !FirstLife(s.procs[n].life)
    ensures AutoInv(LogAuto(s, g))
  {
  }

  lemma LogAutoTable(s: State, g: nat)
    requires CoreInv(s) && TimersInv(s) && BatchInv(s) && BudgetInv(s) && IntentsInv(s)
    ensures CoreInv(LogAuto(s, g)) && TimersInv(LogAuto(s, g)) && BatchInv(LogAuto(s, g))
    ensures BudgetInv(LogAuto(s, g)) && IntentsInv(LogAuto(s, g))
  {
    assert forall n :: n in s.procs ==> RecordOk(s, n) && BudgetOk(s, n);
  }

  lemma ResetStartsOver(s: State, n: string)
    ensures AutoSince(LogReset(s, n).world.budget, n) == 0
  {
    AutoSinceSnoc(s.world.budget, Reset(n), n);
  }

  lemma LogResetRest(s: State, n: string)
    requires TasksInv(s) && IncInv(s) && RepliesInv(s, None)
    ensures TasksInv(LogReset(s, n)) && IncInv(LogReset(s, n)) && RepliesInv(LogReset(s, n), None)
  {
    hide TasksInv, IncInv, RepliesInv;
    var s2 := LogReset(s, n);
    TasksStay(s, s2);
    Stay(s, s2);
    Settle(s, s2, None, None, Answered(0));
  }

  lemma LogResetKeeps(s: State, n: string)
    requires Inv(s, None)
    ensures Inv(LogReset(s, n), None) && AutoSince(LogReset(s, n).world.budget, n) == 0
  {
    hide CoreInv, TasksInv, TimersInv, AutoInv, BatchInv, BudgetInv, IncInv, RepliesInv, IntentsInv, AutoSince, LogReset;
    ResetStartsOver(s, n);
    LogResetTable(s, n);
    LogResetRest(s, n);
  }

  lemma LogResetTable(s: State, n: string)
    requires CoreInv(s) && TimersInv(s) && AutoInv(s) && BatchInv(s) && BudgetInv(s) && IntentsInv(s)
    ensures CoreInv(LogReset(s, n)) && TimersInv(LogReset(s, n)) && AutoInv(LogReset(s, n))
    ensures BatchInv(LogReset(s, n)) && BudgetInv(LogReset(s, n)) && IntentsInv(LogReset(s, n))
  {
    forall m | m in s.procs ensures RecordOk(LogReset(s, n), m) && BudgetOk(LogReset(s, n), m) {
      assert RecordOk(s, m) && BudgetOk(s, m);
      AutoSinceSnoc(s.world.budget, Reset(n), m);
    }
  }

  // The record an AutoRestart of generation `g` is for still waits for it.
  ghost predicate TimerWanted(s: State, g: nat, n: string) {
    n in s.procs && s.procs[n].generation == g && AwaitsTimer(s.procs[n].life)
  }

  lemma WantedTimer(s: State, g: nat, n: string)
    requires CoreInv(s) && TimersInv(s) && BatchInv(s) && g in s.world.timers && TimerWanted(s, g, n)
    ensures s.stopAll.None? && s.world.timers[g] == n
  {
    assert RecordOk(s, n);
  }

  lemma WantedTimerActs(s: State, g: nat, n: string)
    requires g in s.world.timers && TimerWanted(s, g, n) && s.stopAll.None? && s.world.timers[g] == n
    requires s.procs[n].life.why == Natural
    ensures HandleAutoRestart(s, g) == BeginStop(LogAuto(TakeTimer(s, g), g), n, Respawn(Auto), [], s.procs[n].restartCount + 1)
  {
    FindKeySound(s.procs, n);
  }

  lemma UnwantedTimerDropped(s: State, g: nat)
    requires g in s.world.timers && !exists n :: TimerWanted(s, g, n)
    ensures HandleAutoRestart(s, g) == TakeTimer(s, g)
  {
    FindKeySound(s.procs, s.world.timers[g]);
    if s.stopAll.None? && FindKey(s.procs, s.world.timers[g]).Some? {
      assert !TimerWanted(s, g, FindKey(s.procs, s.world.timers[g]).value);
    }
  }

  // A delivered timer is acted upon exactly when its record still waits for it, so no
  // scheduled restart is lost, even to a stop-all.
  lemma AutoRestartActs(s: State, g: nat)
    requires CoreInv(s) && TimersInv(s) && BatchInv(s) && g in s.world.timers
    ensures (exists n :: TimerWanted(s, g, n)) ==>
              s.stopAll.None? && TimerWanted(s, g, s.world.timers[g])
              && HandleAutoRestart(s, g) == BeginStop(LogAuto(TakeTimer(s, g), g), s.world.timers[g], Respawn(Auto), [],
                                                      s.procs[s.world.timers[g]].restartCount + 1)
    ensures !(exists n :: TimerWanted(s, g, n)) ==> HandleAutoRestart(s, g) == TakeTimer(s, g)
  {
    if n :| TimerWanted(s, g, n) {
      assert RecordOk(s, n);
      hide BeginStop, HandleAutoRestart, CoreInv, TimersInv, BatchInv;
      WantedTimer(s, g, n);
      WantedTimerActs(s, g, n);
    } else {
      hide BeginStop, HandleAutoRestart, CoreInv, TimersInv, BatchInv;
      UnwantedTimerDropped(s, g);
    }
  }

  lemma AutoRestartKeeps(s: State, g: nat)
    requires Inv(s, None) && g in s.world.timers
    ensures Inv(HandleAutoRestart(s, g), None)
  {
    hide CoreInv, TasksInv, TimersInv, AutoInv, BatchInv, BudgetInv, IncInv, RepliesInv, IntentsInv;
    AutoRestartActs(s, g);
    if exists n :: TimerWanted(s, g, n) {
      AutoRestartAccepted(s, g, s.world.timers[g]);
    } else {
      forall n | n in s.procs && s.procs[n].generation == g ensures !AwaitsTimer(s.procs[n].life) {
        assert !TimerWanted(s, g, n);
      }
      TakeTimerKeeps(s, g);
    }
  }

  lemma AutoRestartAccepted(s: State, g: nat, n: string)
    requires Inv(s, None) && s.stopAll.None? && TimerWanted(s, g, n)
    ensures Inv(BeginStop(LogAuto(TakeTimer(s, g), g), n, Respawn(Auto), [], s.procs[n].restartCount + 1), None)
  {
    hide TasksInv, TimersInv, BatchInv, BudgetInv, IncInv, RepliesInv, IntentsInv;
    var s1 := BeginStop(s, n, Respawn(Auto), [], s.procs[n].restartCount + 1);
    BeginStopKeeps(s, n, Respawn(Auto), [], s.procs[n].restartCount + 1, None);
    assert RecordOk(s, n);
    forall m | m in s1.procs && s1.procs[m].generation == g ensures m == n && s1.procs[m].life.Stopping? {
      assert RecordOk(s, m);
    }
    TakeTimerKeeps(s1, g);
    LogAutoKeeps(TakeTimer(s1, g), g);
    assert BeginStop(LogAuto(TakeTimer(s, g), g), n, Respawn(Auto), [], s.procs[n].restartCount + 1)
        == LogAuto(TakeTimer(s1, g), g);
  }

  lemma WatchRestartKeeps(s: State, g: nat)
    requires Inv(s, None) && g in s.world.issued
    ensures Inv(HandleWatchRestart(s, g), None)
  {
    hide TableInv, IncInv, RepliesInv, IntentsInv;
    FindKeySound(s.procs, s.world.issued[g]);
    var found := FindKey(s.procs, s.world.issued[g]);
    if s.stopAll.None? && found.Some? {
      var n := found.value;
      var p := s.procs[n];
      if p.generation == g && !p.life.Stopping? && !(p.life.Exited? && p.life.why == ManualStop) {
        LogResetKeeps(s, n);
        BeginStopKeeps(LogReset(s, n), n, Respawn(Watch), [], 0, None);
      }
    }
  }

  // The completion of a teardown always finds its own record, still Stopping: the early
  // returns and the unreachable branch of finish_teardown are never taken.
  lemma StopFinishedFindsItsRecord(s: State, g: nat, ok: bool)
    requires CoreInv(s) && TasksInv(s) && g in s.world.tasks && s.world.tasks[g].phase.Reported?
    ensures Finishing(s, g, s.world.tasks[g].name)
    ensures FindKey(s.procs, s.world.tasks[g].name) == Some(s.world.tasks[g].name)
    ensures HandleStopFinished(s, g, ok) == Publish(CloseBatchIfDone(Finished(s, g, s.world.tasks[g].name, ok)))
  {
    assert TaskOk(s, g);
    FindKeySound(s.procs, s.world.tasks[g].name);
  }

  lemma StopFinishedKeeps(s: State, g: nat, ok: bool)
    requires Inv(s, None) && g in s.world.tasks && s.world.tasks[g].phase.Reported?
    ensures Inv(HandleStopFinished(s, g, ok), None)
  {
    StopFinishedFindsItsRecord(s, g, ok);
    hide Inv;
    var n := s.world.tasks[g].name;
    FinishKeeps(s, g, n, ok);
    var s1 := Finished(s, g, n, ok);
    if s1.stopAll.Some? && s1.stopAll.value.remaining == {} { CloseBatchKeeps(s1); }
    PublishKeeps(CloseBatchIfDone(s1), None);
  }

  lemma TaskStepKeeps(s: State, step: Step)
    requires Inv(s, None) && Enabled(s, step) && PortAllocation.InRange(s.nextAutoPort)
    requires step.TermStep? || step.PollStep? || step.KillStep? || step.ReapStep?
    ensures Inv(Apply(s, step), None)
  {
    hide Inv;
    var g := step.generation;
    var t := Apply(s, step).world.tasks[g];
    var i := t.inc.value;
    match step {
      case TermStep(_) => AdvanceKeeps(s, g, t, [SignalEvent(i, Term)]);
      case PollStep(_) =>
        AdvanceKeeps(s, g, t, []);
        assert s.world.signals + [] == s.world.signals;
      case KillStep(_) => AdvanceKeeps(s, g, t, [SignalEvent(i, Kill)]);
      case ReapStep(_, _) => AdvanceKeeps(s, g, t, [SignalEvent(i, Reap)]);
    }
  }

  // Whatever happens next, the invariants hold again afterwards.
  lemma StepKeeps(s: State, step: Step)
    requires Inv(s, None) && PortAllocation.InRange(s.nextAutoPort) && Enabled(s, step)
    ensures Inv(Apply(s, step), None)
  {
    hide Inv;
    var r := s.world.nextReply;
    ArriveKeeps(s);
    match step
    case SpawnStep(req) => SpawnKeeps(Arrive(s), r, req);
    case StopStep(target) => StopKeeps(Arrive(s), r, target);
    case StopAllStep => StopAllKeeps(Arrive(s), r);
    case RestartStep(target) => RestartKeeps(Arrive(s), r, target);
    case StatusStep => StatusKeeps(Arrive(s), r);
    case IsExitedStep(target) => IsExitedKeeps(Arrive(s), r, target);
    case EnableProxyStep(port) => EnableProxyKeeps(Arrive(s), r, port);
    case TickStep => TickKeeps(s);
    case AutoRestartStep(g) => AutoRestartKeeps(s, g);
    case WatchRestartStep(g) => WatchRestartKeeps(s, g);
    case StopFinishedStep(g, ok) => StopFinishedKeeps(s, g, ok);
    case LeaderExitsStep(i, c) => LeaderExitKeeps(s, i, c);
    case _ => TaskStepKeeps(s, step);
  }
}
