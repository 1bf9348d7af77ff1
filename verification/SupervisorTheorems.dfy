/** What the supervisor promises its clients and the processes it manages. Each theorem
    speaks of every state some run reaches, or of every step from such a state. */
module SupervisorTheorems {
  import opened Options
  import opened Identifiers
  import opened ProcessManager
  import opened Supervisor
  import opened SupervisorInvariants
  import opened SupervisorSteps
  import opened SupervisorTeardowns
  import opened SupervisorCommands
  import opened SupervisorRuns
  import PortAllocation

  // --- Incarnations ----------------------------------------------------------------

  // Each incarnation ever spawned is in exactly one place: held by one record, owned by
  // one teardown under way, or gone.
  lemma IncarnationsConserved(s: State, i: Incarnation)
    requires Reachable(s)
    ensures i < s.world.nextInc ==> exists place :: At(s, i, place) && forall other :: At(s, i, other) ==> other == place
    ensures i >= s.world.nextInc ==> forall place :: !At(s, i, place)
  {
    ReachableSound(s);
    if i < s.world.nextInc {
      assert SomePlace(s, i);
      var place :| At(s, i, place);
      assert forall other :: At(s, i, other) ==> other == place;
    }
  }

  lemma HistoryOfPrefix(signals: seq<SignalEvent>, j: nat, i: Incarnation)
    requires j <= |signals|
    ensures |History(signals[..j], i)| <= |History(signals, i)|
    ensures History(signals[..j], i) == History(signals, i)[..|History(signals[..j], i)|]
    decreases |signals|
  {
    if j == |signals| {
      assert signals[..j] == signals;
    } else {
      var shorter := signals[..|signals| - 1];
      assert shorter[..j] == signals[..j];
      HistoryOfPrefix(shorter, j, i);
    }
  }

  lemma NothingAfterReap(signals: seq<SignalEvent>, j: nat, k: nat)
    requires j < k < |signals| && signals[j].signal == Reap
    requires History(signals, signals[j].inc) in {[], [Term], [Term, Kill], [Term, Kill, Reap]}
    ensures signals[k].inc != signals[j].inc
  {
    hide History;
    var i := signals[j].inc;
    var h := History(signals, i);
    var before := |History(signals[..j], i)|;
    HistoryAt(signals, j, i);
    HistoryOfPrefix(signals, j + 1, i);
    assert h[before] == Reap;
    HistoryAt(signals, k, i);
    HistoryOfPrefix(signals[..k], j + 1, i);
    assert signals[..k][..j + 1] == signals[..j + 1];
    HistoryOfPrefix(signals, k + 1, i);
  }

  // No group is signalled after its leader was reaped, so no signal can reach a group
  // that reuses the number.
  lemma NoSignalAfterReap(s: State, j: nat, k: nat)
    requires Reachable(s) && j < k < |s.world.signals| && s.world.signals[j].signal == Reap
    ensures s.world.signals[k].inc != s.world.signals[j].inc
  {
    ReachableSound(s);
    HistoryWithin(s, s.world.signals[j].inc);
    NothingAfterReap(s.world.signals, j, k);
  }

  lemma HistoryAt(signals: seq<SignalEvent>, j: nat, i: Incarnation)
    requires j < |signals|
    ensures History(signals[..j + 1], i) ==
            History(signals[..j], i) + if signals[j].inc == i then [signals[j].signal] else []
  {
    assert signals[..j + 1] == signals[..j] + [signals[j]];
    HistorySnoc(signals[..j], signals[j], i);
  }

  // The signals of an incarnation are always the first few of TERM, KILL, reap.
  lemma HistoryWithin(s: State, i: Incarnation)
    requires IncInv(s)
    ensures History(s.world.signals, i) in {[], [Term], [Term, Kill], [Term, Kill, Reap]}
  {
    if i < s.world.nextInc {
      assert SomePlace(s, i);
      var place :| At(s, i, place);
      assert History(s.world.signals, i) == ExpectedHistory(s, place);
    }
  }

  // --- Replies ---------------------------------------------------------------------

  // Each command ever received is answered, or waits in exactly one list.
  lemma RepliesConserved(s: State, r: ReplyId)
    requires Reachable(s) && r < s.world.nextReply
    ensures exists place :: ReplyAt(s, r, place) && forall other :: ReplyAt(s, r, other) ==> other == place
  {
    ReachableSound(s);
    assert SomeReplyPlace(s, r);
    var place :| ReplyAt(s, r, place);
    assert forall other :: ReplyAt(s, r, other) ==> other == place;
  }

  lemma AnsweredAtMostOnce(s: State, j: nat, k: nat)
    requires Reachable(s) && j < |s.world.answers| && k < |s.world.answers|
    requires s.world.answers[j].reply == s.world.answers[k].reply
    ensures j == k
  {
    ReachableSound(s);
    assert ReplyAt(s, s.world.answers[j].reply, Answered(j));
    assert ReplyAt(s, s.world.answers[j].reply, Answered(k));
  }

  // --- Teardowns -------------------------------------------------------------------

  // Stopping records and in-flight teardowns match one to one, by generation, and
  // generations and ids tell records apart.
  lemma TeardownsMatchRecords(s: State)
    requires Reachable(s)
    ensures forall g :: g in s.world.tasks ==>
              s.world.tasks[g].name in s.procs && s.procs[s.world.tasks[g].name].life.Stopping?
              && s.procs[s.world.tasks[g].name].generation == g
    ensures forall n :: n in s.procs && s.procs[n].life.Stopping? ==>
              s.procs[n].generation in s.world.tasks && s.world.tasks[s.procs[n].generation].name == n
    ensures forall m, n :: m in s.procs && n in s.procs && s.procs[m].generation == s.procs[n].generation ==> m == n
    ensures forall m, n :: m in s.procs && n in s.procs && s.procs[m].id == s.procs[n].id ==> m == n
  {
    ReachableSound(s);
    assert forall g :: g in s.world.tasks ==> TaskOk(s, g);
    assert forall n :: n in s.procs ==> RecordOk(s, n);
  }

  // --- Automatic restarts ------------------------------------------------------------

  // An exit awaiting its timer has one in flight; a record that may still exit, or whose
  // exit has not been classified, has none.
  lemma TimersMatchRecords(s: State, n: string)
    requires Reachable(s) && n in s.procs
    ensures AwaitsTimer(s.procs[n].life) ==>
              s.procs[n].generation in s.world.timers && s.world.timers[s.procs[n].generation] == n
    ensures TimerNotYetSet(s.procs[n].life) ==> s.procs[n].generation !in s.world.timers
  {
    ReachableSound(s);
    assert RecordOk(s, n);
  }

  lemma RestartedAutomaticallyOnce(s: State, j: nat, k: nat)
    requires Reachable(s) && j < |s.world.autoRestarts| && k < |s.world.autoRestarts|
    requires s.world.autoRestarts[j] == s.world.autoRestarts[k]
    ensures j == k
  {
    ReachableSound(s);
  }

  // Within the budget: automatic respawns since the last reset never outnumber the
  // restart count, the count never passes the limit, and a record given up on has used
  // its limit up.
  lemma BudgetRespected(s: State, n: string, m: nat)
    requires Reachable(s) && n in s.procs && Limit(s.procs[n]) == Some(m)
    ensures AutoSince(s.world.budget, n) <= s.procs[n].restartCount <= m
    ensures AutoPending(s.procs[n].life) == 1 ==> AutoSince(s.world.budget, n) < m
    ensures s.procs[n].life.Exited? && s.procs[n].life.why == Exhausted ==> s.procs[n].restartCount == m
  {
    ReachableSound(s);
    assert BudgetOk(s, n);
  }

  // --- Intents -----------------------------------------------------------------------

  // However a teardown ended, that is what the last intent accepted for its record asked.
  lemma LastIntentWins(s: State, k: nat)
    requires Reachable(s) && k < |s.world.intents| && s.world.intents[k].Outcome?
    ensures LastWant(s.world.intents[..k], s.world.intents[k].name) == Some(s.world.intents[k].got)
  {
    ReachableSound(s);
  }

  // --- Automatic ports ---------------------------------------------------------------------

  // The search cursor never leaves the range, so no step is ever held up by it.
  lemma CursorStaysInRange(s: State)
    requires Reachable(s)
    ensures PortAllocation.InRange(s.nextAutoPort)
  {
    ReachableSound(s);
  }

  predicate Acceptable(s: State, req: SpawnRequest) {
    var n := req.name.GetOr(IdString(s.nextId));
    !UnsafeName(n) && DnsLabel(n)
  }

  lemma ChoiceIsFirstFree(cursor: nat, taken: set<nat>, bindable: set<nat>)
    requires PortAllocation.InRange(cursor)
    ensures PortAllocation.Choice(cursor, taken, bindable).Some? ==>
              PortAllocation.FirstFree(cursor, taken, bindable, PortAllocation.Choice(cursor, taken, bindable).value)
    ensures PortAllocation.Choice(cursor, taken, bindable).None? <==>
              forall p: nat :: PortAllocation.InRange(p) ==> p in taken || p !in bindable
  {
    if q: nat :| PortAllocation.Free(q, taken, bindable) {
      PortAllocation.SomeFirstFree(cursor, taken, bindable, q);
      assert PortAllocation.InRange(q);
    } else {
      forall p: nat | PortAllocation.InRange(p) ensures p in taken || p !in bindable {
        assert !PortAllocation.Free(p, taken, bindable);
      }
    }
  }

  // A port assigned automatically belongs to no record that runs or is being stopped, and is the
  // first such port from the cursor on that can be bound; the spawn is refused for want of a port
  // exactly when there is none.
  lemma AutoPortIsFree(s: State, req: SpawnRequest)
    requires Reachable(s) && s.stopAll.None? && s.proxyEnabled && req.port.None? && Acceptable(s, req)
    ensures PortAllocation.InRange(s.nextAutoPort)
    ensures var (s2, resp) := SpawnProcess(s, req);
            (resp.RunOk? ==>
               (resp.port.Some?
                && PortAllocation.FirstFree(s.nextAutoPort, HeldPorts(s.procs), req.bindable, resp.port.value)
                && resp.name in s2.procs && s2.procs[resp.name].port == resp.port))
            && (resp == Refused(NoFreePort) <==>
                forall p: nat :: PortAllocation.InRange(p) ==> p in HeldPorts(s.procs) || p !in req.bindable)
  {
    CursorStaysInRange(s);
    ChoiceIsFirstFree(s.nextAutoPort, HeldPorts(s.procs), req.bindable);
  }
}
