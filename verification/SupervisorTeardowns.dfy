/** Finishing a teardown, and the steps of the tasks themselves, keep the invariants. */
module SupervisorTeardowns {
  import opened Options
  import opened Identifiers
  import opened ProcessManager
  import opened Supervisor
  import opened SupervisorInvariants
  import opened SupervisorSteps

  // The teardown of generation `g` has reported and its record is waiting for it.
  predicate Finishing(s: State, g: nat, n: string) {
    g in s.world.tasks && s.world.tasks[g].phase.Reported?
    && n in s.procs && s.procs[n].life.Stopping? && s.procs[n].generation == g
  }

  function Finished(s: State, g: nat, n: string, ok: bool): State
    requires Finishing(s, g, n)
  {
    FinishTeardown(TakeTask(s, g), n, s.world.tasks[g].phase.code, ok)
  }

  lemma FinishCore(s: State, g: nat, n: string, ok: bool)
    requires CoreInv(s) && Finishing(s, g, n)
    ensures CoreInv(Finished(s, g, n, ok))
  {
    hide IdIssued;
    var s2 := Finished(s, g, n, ok);
    forall m | m in s.procs ensures s.procs[m].id != IdString(s.nextId) && IdIssued(s.procs[m].id, s.nextId + 1) {
      assert RecordOk(s, m);
      NextIdIsFresh(s.procs[m].id, s.nextId);
    }
    NewIdIssued(s.nextId);
    forall m | m in s2.procs ensures RecordOk(s2, m) {
      assert RecordOk(s, m);
    }
  }

  lemma FinishTasks(s: State, g: nat, n: string, ok: bool)
    requires CoreInv(s) && TasksInv(s) && Finishing(s, g, n)
    ensures TasksInv(Finished(s, g, n, ok))
  {
    var s2 := Finished(s, g, n, ok);
    forall h | h in s2.world.tasks ensures TaskOk(s2, h) {
      assert TaskOk(s, h);
      assert s.world.tasks[h].name != n;
    }
    forall m | m in s2.procs && s2.procs[m].life.Stopping?
      ensures s2.procs[m].generation in s2.world.tasks && s2.world.tasks[s2.procs[m].generation].name == m
    {
      assert RecordOk(s, m) && RecordOk(s, n);
    }
  }

  lemma FinishTimers(s: State, g: nat, n: string, ok: bool)
    requires CoreInv(s) && TimersInv(s) && Finishing(s, g, n)
    ensures TimersInv(Finished(s, g, n, ok))
  {
    hide IdIssued, WaiterAnswers, RestartReply, RespawnEvents, LifeOk;
    assert s.nextGeneration + 1 !in s.world.issued;
  }

  lemma FinishAuto(s: State, g: nat, n: string, ok: bool)
    requires CoreInv(s) && AutoInv(s) && Finishing(s, g, n)
    ensures AutoInv(Finished(s, g, n, ok))
  {
    assert s.nextGeneration + 1 !in s.world.issued;
  }

  lemma FinishBatch(s: State, g: nat, n: string, ok: bool)
    requires BatchInv(s) && Finishing(s, g, n)
    ensures BatchInv(Finished(s, g, n, ok))
  {
    var s2 := Finished(s, g, n, ok);
    if s.stopAll.Some? {
      assert s.procs[n].life.next == Park;
      assert StoppingNames(s2.procs) == StoppingNames(s.procs) - {n};
    }
  }

  lemma FinishBudget(s: State, g: nat, n: string, ok: bool)
    requires BudgetInv(s) && Finishing(s, g, n)
    ensures BudgetInv(Finished(s, g, n, ok))
  {
    hide BudgetOk, Finished;
    FinishedNames(s, g, n, ok);
    forall m | m in s.procs ensures BudgetOk(Finished(s, g, n, ok), m) {
      FinishedCount(s, g, n, ok, m);
      if m == n { FinishedOwnBudget(s, g, n, ok); } else { FinishedOtherBudget(s, g, n, ok, m); }
    }
  }

  lemma FinishedNames(s: State, g: nat, n: string, ok: bool)
    requires Finishing(s, g, n)
    ensures Finished(s, g, n, ok).procs.Keys == s.procs.Keys
    ensures forall m :: m in s.procs && m != n ==> Finished(s, g, n, ok).procs[m] == s.procs[m]
  {
    hide AfterTeardown, WaiterAnswers, RestartReply, RespawnEvents;
  }

  // The count of a respawn since the last reset, from the event it logs.
  lemma FinishedCount(s: State, g: nat, n: string, ok: bool, m: string)
    requires Finishing(s, g, n)
    ensures AutoSince(Finished(s, g, n, ok).world.budget, m)
         == match s.procs[n].life.next
            case Park => AutoSince(s.world.budget, m)
            case Respawn(Manual) => CountAfter(Reset(n), m, AutoSince(s.world.budget, m))
            case Respawn(Auto) => CountAfter(AutoRespawn(n), m, AutoSince(s.world.budget, m))
            case Respawn(Watch) => AutoSince(s.world.budget, m)
  {
    hide AutoSince, AfterTeardown, WaiterAnswers, RestartReply;
    AutoSinceSnoc(s.world.budget, Reset(n), m);
    AutoSinceSnoc(s.world.budget, AutoRespawn(n), m);
    assert s.world.budget + [] == s.world.budget;
  }

  lemma FinishedOwnBudget(s: State, g: nat, n: string, ok: bool)
    requires Finishing(s, g, n) && BudgetOk(s, n)
    requires AutoSince(Finished(s, g, n, ok).world.budget, n)
          == match s.procs[n].life.next
             case Park => AutoSince(s.world.budget, n)
             case Respawn(Manual) => CountAfter(Reset(n), n, AutoSince(s.world.budget, n))
             case Respawn(Auto) => CountAfter(AutoRespawn(n), n, AutoSince(s.world.budget, n))
             case Respawn(Watch) => AutoSince(s.world.budget, n)
    ensures n in Finished(s, g, n, ok).procs && BudgetOk(Finished(s, g, n, ok), n)
  {
    hide AutoSince, WaiterAnswers, RestartReply, RespawnEvents;
  }

  lemma FinishedOtherBudget(s: State, g: nat, n: string, ok: bool, m: string)
    requires Finishing(s, g, n) && m in s.procs && m != n && BudgetOk(s, m)
    requires m in Finished(s, g, n, ok).procs && Finished(s, g, n, ok).procs[m] == s.procs[m]
    requires AutoSince(Finished(s, g, n, ok).world.budget, m) == AutoSince(s.world.budget, m)
    ensures BudgetOk(Finished(s, g, n, ok), m)
  {
    hide AutoSince, Finished;
  }

  lemma FinishPlaces(s: State, g: nat, n: string, ok: bool)
    requires IncInv(s) && Finishing(s, g, n)
    ensures IncInv(Finished(s, g, n, ok))
  {
    var s2 := Finished(s, g, n, ok);
    if s2.procs[n].life.Running? {
      var i := s.world.nextInc;
      assert History(s.world.signals, i) == [];
      forall a ensures At(s2, i, a) <==> a == InRecord(n) {
        assert !At(s, i, a);
      }
      Appear(s, s2, n);
    } else {
      Stay(s, s2);
    }
  }

  lemma FinishReplies(s: State, g: nat, n: string, ok: bool)
    requires RepliesInv(s, None) && Finishing(s, g, n)
    ensures RepliesInv(Finished(s, g, n, ok), None)
  {
    var base := |s.world.answers|;
    RelocateReplies(s, Finished(s, g, n, ok), None, None,
      (a: ReplyPlace) => if a.Waiting? && a.name == n then Answered(base + a.index) else a,
      (a: ReplyPlace) => if a.Answered? && a.index >= base then Waiting(n, a.index - base) else a,
      Answered(0));
  }

  lemma FinishIntents(s: State, g: nat, n: string, ok: bool)
    requires IntentsInv(s) && Finishing(s, g, n)
    ensures IntentsInv(Finished(s, g, n, ok))
  {
    IntentsStep(s, Finished(s, g, n, ok), Outcome(n, s.procs[n].life.next));
  }

  lemma FinishKeeps(s: State, g: nat, n: string, ok: bool)
    requires Inv(s, None) && Finishing(s, g, n)
    ensures Inv(Finished(s, g, n, ok), None)
  {
    hide CoreInv, TasksInv, TimersInv, AutoInv, BatchInv, BudgetInv, IncInv, RepliesInv, IntentsInv;
    FinishCore(s, g, n, ok);
    FinishTasks(s, g, n, ok);
    FinishTimers(s, g, n, ok);
    FinishAuto(s, g, n, ok);
    FinishBatch(s, g, n, ok);
    FinishBudget(s, g, n, ok);
    FinishPlaces(s, g, n, ok);
    FinishReplies(s, g, n, ok);
    FinishIntents(s, g, n, ok);
  }

  // --- Teardown tasks and leaders ----------------------------------------------------

  // A task that keeps its name and incarnation and moves on in phase, having signalled
  // its group as the phase says.
  predicate Advances(s: State, g: nat, t: Teardown, events: seq<SignalEvent>) {
    g in s.world.tasks && s.world.tasks[g].inc.Some? && !s.world.tasks[g].phase.Reported?
    && t.name == s.world.tasks[g].name && t.inc == s.world.tasks[g].inc
    && PhaseHistory(t.phase) == PhaseHistory(s.world.tasks[g].phase) + seq(|events|, k requires 0 <= k < |events| => events[k].signal)
    && |events| <= 1 && forall e :: e in events ==> Some(e.inc) == t.inc
  }

  function Advanced(s: State, g: nat, t: Teardown, events: seq<SignalEvent>): State {
    s.(world := s.world.(tasks := s.world.tasks[g := t], signals := s.world.signals + events))
  }

  lemma AdvanceHistory(s: State, g: nat, t: Teardown, events: seq<SignalEvent>, i: Incarnation)
    requires IncInv(s) && Advances(s, g, t, events)
    ensures History(s.world.signals + events, i) ==
            if t.inc == Some(i) then PhaseHistory(t.phase) else History(s.world.signals, i)
  {
    assert At(s, s.world.tasks[g].inc.value, InTask(g));
    if |events| == 1 {
      assert events == [events[0]];
      HistorySnoc(s.world.signals, events[0], i);
    } else {
      assert s.world.signals + events == s.world.signals;
    }
  }

  lemma AdvancePlaces(s: State, g: nat, t: Teardown, events: seq<SignalEvent>)
    requires IncInv(s) && Advances(s, g, t, events)
    ensures IncInv(Advanced(s, g, t, events))
  {
    var s2 := Advanced(s, g, t, events);
    var mine := s.world.tasks[g].inc.value;
    assert At(s, mine, InTask(g));
    forall i: Incarnation
      ensures History(s2.world.signals, i) == if i == mine then PhaseHistory(t.phase) else History(s.world.signals, i)
    {
      AdvanceHistory(s, g, t, events, i);
    }
    if t.phase.Reported? {
      AdvanceToGone(s, s2, g, mine);
    } else {
      Relocate(s, s2, a => a, a => a);
    }
  }

  lemma AdvanceToGone(s: State, s2: State, g: nat, mine: Incarnation)
    requires IncInv(s) && At(s, mine, InTask(g)) && g in s2.world.tasks && s2.world.tasks[g].phase.Reported?
    requires s2 == s.(world := s.world.(tasks := s.world.tasks[g := s2.world.tasks[g]], signals := s2.world.signals))
    requires forall i: Incarnation ::
               History(s2.world.signals, i) == if i == mine then [Term, Kill, Reap] else History(s.world.signals, i)
    ensures IncInv(s2)
  {
    assert !At(s, mine, Gone);
    forall i: Incarnation | i < s2.world.nextInc ensures SomePlace(s2, i) {
      assert SomePlace(s, i);
      var a :| At(s, i, a);
      assert At(s2, i, if i == mine then Gone else a);
    }
    forall i: Incarnation, a | At(s2, i, a) ensures At(s, i, if i == mine then InTask(g) else a) && (i == mine ==> a == Gone) {
      if i == mine && a != Gone { assert At(s, i, a); }
    }
  }

  lemma AdvanceTasks(s: State, g: nat, t: Teardown, events: seq<SignalEvent>)
    requires TasksInv(s) && Advances(s, g, t, events)
    ensures TasksInv(Advanced(s, g, t, events))
  {
    var s2 := Advanced(s, g, t, events);
    forall h | h in s2.world.tasks ensures TaskOk(s2, h) {
      assert TaskOk(s, h);
    }
  }

  lemma AdvanceKeeps(s: State, g: nat, t: Teardown, events: seq<SignalEvent>)
    requires Inv(s, None) && Advances(s, g, t, events)
    ensures Inv(Advanced(s, g, t, events), None)
  {
    hide CoreInv, TasksInv, TimersInv, AutoInv, BatchInv, BudgetInv, IncInv, RepliesInv, IntentsInv;
    var s2 := Advanced(s, g, t, events);
    TableStays(s, s2);
    AdvanceTasks(s, g, t, events);
    AdvancePlaces(s, g, t, events);
    Settle(s, s2, None, None, Answered(0));
  }

  lemma LeaderExitKeeps(s: State, i: Incarnation, c: Code)
    requires Inv(s, None)
    ensures Inv(s.(world := s.world.(exits := s.world.exits[i := c])), None)
  {
    hide CoreInv, TasksInv, TimersInv, AutoInv, BatchInv, BudgetInv, IncInv, RepliesInv, IntentsInv;
    var s2 := s.(world := s.world.(exits := s.world.exits[i := c]));
    TableStays(s, s2);
    TasksStay(s, s2);
    Stay(s, s2);
    Settle(s, s2, None, None, Answered(0));
  }
}
