/** Every piece a command is made of keeps the supervisor's invariants. */
module SupervisorSteps {
  import opened Options
  import opened Identifiers
  import opened ProcessManager
  import opened Supervisor
  import opened SupervisorInvariants
  import PortAllocation

  // --- The logs, one event at a time ------------------------------------------

  lemma {:induction false} HistorySnoc(signals: seq<SignalEvent>, e: SignalEvent, i: Incarnation)
    ensures History(signals + [e], i) == History(signals, i) + if e.inc == i then [e.signal] else []
  {
    assert (signals + [e])[..|signals|] == signals;
  }

  lemma {:induction false} LastWantSnoc(log: seq<IntentEvent>, e: IntentEvent, n: string)
    ensures LastWant(log + [e], n) == WantAfter(e, n, LastWant(log, n))
  {
    assert (log + [e])[..|log|] == log;
  }

  lemma OutcomesSnoc(log: seq<IntentEvent>, e: IntentEvent)
    requires OutcomesOk(log)
    requires e.Outcome? ==> LastWant(log, e.name) == Some(e.got)
    ensures OutcomesOk(log + [e])
  {
    var log' := log + [e];
    forall k | 0 <= k < |log'| && log'[k].Outcome?
      ensures LastWant(log'[..k], log'[k].name) == Some(log'[k].got)
    {
      assert log'[..k] == log[..k];
      if k == |log| { assert log[..k] == log; }
    }
  }

  // The event accounts for what the Stopping record `n` is to become.
  ghost predicate Settles(e: IntentEvent, s: State, s2: State, n: string)
    requires n in s2.procs && s2.procs[n].life.Stopping?
  {
    if e.Want? && n in e.names then s2.procs[n].life.next == e.wanted
    else
      (e.Outcome? ==> n != e.name)
      && n in s.procs && s.procs[n].life.Stopping? && s2.procs[n].life.next == s.procs[n].life.next
  }

  // A new event keeps the intents invariant when it settles every record it touches.
  lemma IntentsStep(s: State, s2: State, e: IntentEvent)
    requires IntentsInv(s) && s2.world.intents == s.world.intents + [e]
    requires e.Outcome? ==> LastWant(s.world.intents, e.name) == Some(e.got)
    requires forall n :: n in s2.procs && s2.procs[n].life.Stopping? ==> Settles(e, s, s2, n)
    ensures IntentsInv(s2)
  {
    OutcomesSnoc(s.world.intents, e);
    forall n | n in s2.procs && s2.procs[n].life.Stopping?
      ensures LastWant(s2.world.intents, n) == Some(s2.procs[n].life.next)
    {
      LastWantSnoc(s.world.intents, e, n);
    }
  }

  lemma {:induction false} AutoSinceSnoc(log: seq<BudgetEvent>, e: BudgetEvent, n: string)
    ensures AutoSince(log + [e], n) == CountAfter(e, n, AutoSince(log, n))
  {
    assert (log + [e])[..|log|] == log;
  }

  // --- Moving incarnations and replies ----------------------------------------

  // If places are carried over by `f`, with `back` undoing it, then every incarnation
  // still is in exactly one place.
  lemma Relocate(s: State, s2: State, f: Place -> Place, back: Place -> Place)
    requires IncInv(s) && s2.world.nextInc == s.world.nextInc
    requires forall i: Incarnation, a :: At(s, i, a) ==> At(s2, i, f(a))
    requires forall i: Incarnation, a :: At(s2, i, a) ==> At(s, i, back(a)) && f(back(a)) == a
    requires forall i: Incarnation, a :: At(s2, i, a) ==> History(s2.world.signals, i) == ExpectedHistory(s2, a)
    requires forall i: Incarnation :: i >= s.world.nextInc ==> History(s2.world.signals, i) == []
    ensures IncInv(s2)
  {
    forall i: Incarnation | i < s2.world.nextInc ensures SomePlace(s2, i) {
      assert SomePlace(s, i);
      var a :| At(s, i, a);
      assert At(s2, i, f(a));
    }
    forall i: Incarnation, a, b | At(s2, i, a) && At(s2, i, b) ensures a == b {
      assert At(s, i, back(a)) && At(s, i, back(b));
    }
  }

  // Nothing moved.
  lemma Stay(s: State, s2: State)
    requires IncInv(s) && s2.world.nextInc == s.world.nextInc && s2.world.signals == s.world.signals
    requires forall i: Incarnation, a :: At(s2, i, a) <==> At(s, i, a)
    requires forall i: Incarnation, a :: At(s2, i, a) ==> ExpectedHistory(s2, a) == ExpectedHistory(s, a)
    ensures IncInv(s2)
  {
    Relocate(s, s2, a => a, a => a);
  }

  // One fresh incarnation appears in the record `n`.
  lemma Appear(s: State, s2: State, n: string)
    requires IncInv(s) && s2.world.nextInc == s.world.nextInc + 1 && s2.world.signals == s.world.signals
    requires forall i: Incarnation, a ::
               At(s2, i, a) <==> if i == s.world.nextInc then a == InRecord(n) else At(s, i, a)
    requires forall i: Incarnation, a :: At(s2, i, a) && i != s.world.nextInc ==> ExpectedHistory(s2, a) == ExpectedHistory(s, a)
    ensures IncInv(s2)
  {
    assert At(s2, s.world.nextInc, InRecord(n));
    assert SomePlace(s2, s.world.nextInc);
    forall i: Incarnation | i < s.world.nextInc ensures SomePlace(s2, i) {
      assert SomePlace(s, i);
      var a :| At(s, i, a);
      assert At(s2, i, a);
    }
  }

  lemma RelocateReplies(s: State, s2: State, l1: Option<ReplyId>, l2: Option<ReplyId>,
                        f: ReplyPlace -> ReplyPlace, back: ReplyPlace -> ReplyPlace, target: ReplyPlace)
    requires RepliesInv(s, l1) && s2.world.nextReply == s.world.nextReply
    requires l2 == l1 || (l1.Some? && l2.None? && ReplyAt(s2, l1.value, target))
    requires forall r: ReplyId, a :: ReplyAt(s, r, a) ==> ReplyAt(s2, r, f(a))
    requires forall r: ReplyId, a :: ReplyAt(s2, r, a) ==>
               if l2 != l1 && a == target then r == l1.value else ReplyAt(s, r, back(a)) && f(back(a)) == a
    ensures RepliesInv(s2, l2)
  {
    forall r: ReplyId | r < s2.world.nextReply && l2 != Some(r) ensures SomeReplyPlace(s2, r) {
      if l1 == Some(r) {
        assert ReplyAt(s2, r, target);
      } else {
        assert SomeReplyPlace(s, r);
        var a :| ReplyAt(s, r, a);
        assert ReplyAt(s2, r, f(a));
      }
    }
    forall r: ReplyId, a, b | ReplyAt(s2, r, a) && ReplyAt(s2, r, b) ensures a == b {
      if !(l2 != l1 && a == target) { assert ReplyAt(s, r, back(a)); }
      if !(l2 != l1 && b == target) { assert ReplyAt(s, r, back(b)); }
    }
  }

  // Nothing moved and the loose reply, if any, found its place at `target`.
  lemma Settle(s: State, s2: State, l1: Option<ReplyId>, l2: Option<ReplyId>, target: ReplyPlace)
    requires RepliesInv(s, l1) && s2.world.nextReply == s.world.nextReply
    requires l2 == l1 || (l1.Some? && l2.None?)
    requires forall r: ReplyId, a ::
               ReplyAt(s2, r, a) <==> if l2 != l1 && a == target then r == l1.value else ReplyAt(s, r, a)
    requires l2 != l1 ==> forall r: ReplyId :: !ReplyAt(s, r, target)
    ensures RepliesInv(s2, l2)
  {
    RelocateReplies(s, s2, l1, l2, a => a, a => a, target);
  }

  // The part of a state that neither replies nor teardown tasks are in.
  predicate SameTable(s: State, s2: State) {
    s2.procs == s.procs && s2.nextId == s.nextId && s2.nextGeneration == s.nextGeneration
    && s2.nextAutoPort == s.nextAutoPort
    && s2.world.timers == s.world.timers && s2.world.issued == s.world.issued
    && s2.world.autoRestarts == s.world.autoRestarts && s2.world.budget == s.world.budget
    && s2.world.intents == s.world.intents
    && (s2.stopAll.Some? ==> s.stopAll.Some? && s2.stopAll.value.remaining == s.stopAll.value.remaining)
  }

  lemma TableStays(s: State, s2: State)
    requires CoreInv(s) && TimersInv(s) && AutoInv(s) && BatchInv(s) && BudgetInv(s) && IntentsInv(s)
    requires SameTable(s, s2)
    ensures CoreInv(s2) && TimersInv(s2) && AutoInv(s2) && BatchInv(s2) && BudgetInv(s2) && IntentsInv(s2)
  {
    assert forall n :: n in s.procs ==> RecordOk(s, n) && BudgetOk(s, n);
  }

  lemma TasksStay(s: State, s2: State)
    requires TasksInv(s) && s2.procs == s.procs && s2.world.tasks == s.world.tasks
    ensures TasksInv(s2)
  {
    assert forall g :: g in s.world.tasks ==> TaskOk(s, g);
  }

  // --- A command arrives and is answered ---------------------------------------

  lemma ArriveKeeps(s: State)
    requires Inv(s, None)
    ensures Inv(Arrive(s), Some(s.world.nextReply))
  {
    hide CoreInv, TasksInv, TimersInv, AutoInv, BatchInv, BudgetInv, IncInv, RepliesInv, IntentsInv;
    var s2 := Arrive(s);
    TableStays(s, s2);
    TasksStay(s, s2);
    Stay(s, s2);
    ArriveReplies(s);
  }

  lemma ArriveReplies(s: State)
    requires RepliesInv(s, None)
    ensures RepliesInv(Arrive(s), Some(s.world.nextReply))
  {
    var s2 := Arrive(s);
    assert forall r: ReplyId, a :: ReplyAt(s2, r, a) <==> ReplyAt(s, r, a);
    forall r: ReplyId | r < s.world.nextReply ensures SomeReplyPlace(s2, r) {
      assert SomeReplyPlace(s, r);
      var a :| ReplyAt(s, r, a);
      assert ReplyAt(s2, r, a);
    }
  }

  lemma ReplyAnswers(s: State, r: ReplyId, resp: Response)
    requires RepliesInv(s, Some(r))
    ensures RepliesInv(Reply(s, r, resp), None)
  {
    Settle(s, Reply(s, r, resp), Some(r), None, Answered(|s.world.answers|));
  }

  lemma ReplyKeeps(s: State, r: ReplyId, resp: Response)
    requires Inv(s, Some(r))
    ensures Inv(Reply(s, r, resp), None)
  {
    hide CoreInv, TasksInv, TimersInv, AutoInv, BatchInv, BudgetInv, IncInv, RepliesInv, IntentsInv;
    TableStays(s, Reply(s, r, resp));
    TasksStay(s, Reply(s, r, resp));
    Stay(s, Reply(s, r, resp));
    ReplyAnswers(s, r, resp);
  }

  // --- Noticing exits ------------------------------------------------------------

  lemma RefreshTable(s: State)
    requires CoreInv(s) && TasksInv(s)
    ensures CoreInv(Refresh(s)) && TasksInv(Refresh(s))
  {
  }

  lemma RefreshTimers(s: State)
    requires CoreInv(s) && TimersInv(s) && AutoInv(s)
    ensures TimersInv(Refresh(s)) && AutoInv(Refresh(s))
  {
  }

  lemma RefreshBudget(s: State)
    requires BatchInv(s) && BudgetInv(s)
    ensures BatchInv(Refresh(s)) && BudgetInv(Refresh(s))
  {
  }

  lemma RefreshMoves(s: State, loose: Option<ReplyId>)
    requires IncInv(s) && RepliesInv(s, loose) && IntentsInv(s)
    ensures IncInv(Refresh(s)) && RepliesInv(Refresh(s), loose) && IntentsInv(Refresh(s))
  {
    Stay(s, Refresh(s));
    Settle(s, Refresh(s), loose, loose, Answered(0));
  }

  lemma RefreshKeeps(s: State, loose: Option<ReplyId>)
    requires Inv(s, loose)
    ensures Inv(Refresh(s), loose)
  {
    hide CoreInv, TasksInv, TimersInv, AutoInv, BatchInv, BudgetInv, IncInv, RepliesInv, IntentsInv;
    RefreshTable(s);
    RefreshTimers(s);
    RefreshBudget(s);
    RefreshMoves(s, loose);
  }

  // --- Handing a record to a teardown task ----------------------------------------

  // The restart count a stop may begin with: one more for an automatic restart whose
  // timer fired, none for a watch restart, unchanged otherwise.
  ghost predicate CountFits(s: State, n: string, next: AfterStop, count: nat)
    requires n in s.procs
  {
    var p := s.procs[n];
    match next
    case Respawn(Auto) => count == p.restartCount + 1 && AwaitsTimer(p.life)
    case Respawn(Watch) => count == 0 && AutoSince(s.world.budget, n) == 0
    case _ => count == p.restartCount
  }

  lemma BeginStopCore(s: State, n: string, next: AfterStop, ws: seq<Waiter>, count: nat)
    requires CoreInv(s) && n in s.procs
    ensures CoreInv(BeginStop(s, n, next, ws, count))
  {
  }

  // Starting a teardown never replaces another one in flight.
  lemma NoTeardownYet(s: State, n: string)
    requires CoreInv(s) && TasksInv(s) && n in s.procs && !s.procs[n].life.Stopping?
    ensures s.procs[n].generation !in s.world.tasks
  {
    var g := s.procs[n].generation;
    assert g in s.world.tasks ==> TaskOk(s, g) && RecordOk(s, s.world.tasks[g].name);
  }

  lemma BeginStopTasks(s: State, n: string, next: AfterStop, ws: seq<Waiter>, count: nat)
    requires CoreInv(s) && TasksInv(s) && n in s.procs && !s.procs[n].life.Stopping?
    requires s.procs[n].generation !in s.world.tasks
    ensures TasksInv(BeginStop(s, n, next, ws, count))
  {
    var s2 := BeginStop(s, n, next, ws, count);
    forall g | g in s2.world.tasks ensures TaskOk(s2, g) {
      assert g in s.world.tasks ==> TaskOk(s, g);
    }
  }

  lemma BeginStopTimers(s: State, n: string, next: AfterStop, ws: seq<Waiter>, count: nat)
    requires CoreInv(s) && TimersInv(s) && AutoInv(s) && n in s.procs && !s.procs[n].life.Stopping?
    ensures TimersInv(BeginStop(s, n, next, ws, count)) && AutoInv(BeginStop(s, n, next, ws, count))
  {
  }

  lemma BeginStopBudget(s: State, n: string, next: AfterStop, ws: seq<Waiter>, count: nat)
    requires BudgetInv(s) && n in s.procs && !s.procs[n].life.Stopping? && CountFits(s, n, next, count)
    ensures BudgetInv(BeginStop(s, n, next, ws, count))
  {
  }

  lemma BeginStopPlaces(s: State, n: string, next: AfterStop, ws: seq<Waiter>, count: nat)
    requires IncInv(s) && n in s.procs && !s.procs[n].life.Stopping? && s.procs[n].generation !in s.world.tasks
    ensures IncInv(BeginStop(s, n, next, ws, count))
  {
    var s2 := BeginStop(s, n, next, ws, count);
    var g := s.procs[n].generation;
    Relocate(s, s2, a => if a == InRecord(n) then InTask(g) else a, a => if a == InTask(g) then InRecord(n) else a);
  }

  lemma BeginStopReplies(s: State, n: string, next: AfterStop, ws: seq<Waiter>, count: nat, loose: Option<ReplyId>)
    requires RepliesInv(s, loose) && n in s.procs && !s.procs[n].life.Stopping?
    requires match loose case None => ws == [] case Some(r) => |ws| == 1 && ws[0].reply == r
    ensures RepliesInv(BeginStop(s, n, next, ws, count), None)
  {
    Settle(s, BeginStop(s, n, next, ws, count), loose, None, Waiting(n, 0));
  }

  lemma BeginStopKeeps(s: State, n: string, next: AfterStop, ws: seq<Waiter>, count: nat, loose: Option<ReplyId>)
    requires Inv(s, loose) && n in s.procs && !s.procs[n].life.Stopping? && s.stopAll.None?
    requires CountFits(s, n, next, count)
    requires match loose case None => ws == [] case Some(r) => |ws| == 1 && ws[0].reply == r
    ensures Inv(BeginStop(s, n, next, ws, count), None)
  {
    hide CoreInv, TasksInv, TimersInv, AutoInv, BudgetInv, IncInv, RepliesInv, IntentsInv;
    BeginStopCore(s, n, next, ws, count);
    NoTeardownYet(s, n);
    BeginStopTasks(s, n, next, ws, count);
    BeginStopTimers(s, n, next, ws, count);
    BeginStopBudget(s, n, next, ws, count);
    BeginStopPlaces(s, n, next, ws, count);
    BeginStopReplies(s, n, next, ws, count, loose);
    IntentsStep(s, BeginStop(s, n, next, ws, count), Want({n}, next));
  }

  // --- Joining a stop already under way -------------------------------------------

  lemma JoinStopTable(s: State, n: string, next: AfterStop, w: Waiter)
    requires CoreInv(s) && TasksInv(s) && n in s.procs && s.procs[n].life.Stopping?
    ensures CoreInv(JoinStop(s, n, next, w)) && TasksInv(JoinStop(s, n, next, w))
  {
  }

  lemma JoinStopTimers(s: State, n: string, next: AfterStop, w: Waiter)
    requires TimersInv(s) && AutoInv(s) && n in s.procs && s.procs[n].life.Stopping?
    ensures TimersInv(JoinStop(s, n, next, w)) && AutoInv(JoinStop(s, n, next, w))
  {
  }

  lemma JoinStopBudget(s: State, n: string, next: AfterStop, w: Waiter)
    requires BatchInv(s) && BudgetInv(s) && n in s.procs && s.procs[n].life.Stopping?
    requires next != Respawn(Auto) && (s.stopAll.Some? ==> next == Park)
    ensures BatchInv(JoinStop(s, n, next, w)) && BudgetInv(JoinStop(s, n, next, w))
  {
    assert StoppingNames(JoinStop(s, n, next, w).procs) == StoppingNames(s.procs);
  }

  lemma JoinStopReplies(s: State, n: string, next: AfterStop, w: Waiter)
    requires RepliesInv(s, Some(w.reply)) && n in s.procs && s.procs[n].life.Stopping?
    ensures RepliesInv(JoinStop(s, n, next, w), None)
  {
    Settle(s, JoinStop(s, n, next, w), Some(w.reply), None, Waiting(n, |s.procs[n].life.waiters|));
  }

  lemma JoinStopKeeps(s: State, n: string, next: AfterStop, w: Waiter)
    requires Inv(s, Some(w.reply)) && n in s.procs && s.procs[n].life.Stopping?
    requires next != Respawn(Auto) && (s.stopAll.Some? ==> next == Park)
    ensures Inv(JoinStop(s, n, next, w), None)
  {
    hide CoreInv, TasksInv, TimersInv, AutoInv, BatchInv, BudgetInv, IncInv, RepliesInv, IntentsInv;
    JoinStopTable(s, n, next, w);
    JoinStopTimers(s, n, next, w);
    JoinStopBudget(s, n, next, w);
    Stay(s, JoinStop(s, n, next, w));
    JoinStopReplies(s, n, next, w);
    IntentsStep(s, JoinStop(s, n, next, w), Want({n}, next));
  }

  // --- A new record ------------------------------------------------------------------

  function Created(s: State, n: string, port: Option<nat>, policy: Option<RestartPolicy>): State {
    CreateRecord(s.(nextId := s.nextId + 1), n, IdString(s.nextId), port, policy)
  }

  lemma CreateTasks(s: State, n: string, port: Option<nat>, policy: Option<RestartPolicy>)
    requires TasksInv(s) && n !in s.procs
    ensures TasksInv(Created(s, n, port, policy))
  {
  }

  lemma CreateCore(s: State, n: string, port: Option<nat>, policy: Option<RestartPolicy>)
    requires CoreInv(s) && n !in s.procs
    ensures CoreInv(Created(s, n, port, policy))
  {
    hide IdIssued;
    forall m | m in s.procs ensures s.procs[m].id != IdString(s.nextId) && IdIssued(s.procs[m].id, s.nextId + 1) {
      assert RecordOk(s, m);
      NextIdIsFresh(s.procs[m].id, s.nextId);
    }
    NewIdIssued(s.nextId);
  }

  lemma CreateTimers(s: State, n: string, port: Option<nat>, policy: Option<RestartPolicy>)
    requires CoreInv(s) && TimersInv(s) && AutoInv(s) && n !in s.procs
    ensures TimersInv(Created(s, n, port, policy)) && AutoInv(Created(s, n, port, policy))
  {
  }

  lemma CreateBudget(s: State, n: string, port: Option<nat>, policy: Option<RestartPolicy>)
    requires BudgetInv(s) && n !in s.procs
    ensures BudgetInv(Created(s, n, port, policy))
  {
    forall m ensures AutoSince(s.world.budget + [Reset(n)], m) == CountAfter(Reset(n), m, AutoSince(s.world.budget, m)) {
      AutoSinceSnoc(s.world.budget, Reset(n), m);
    }
  }

  lemma CreateMoves(s: State, n: string, port: Option<nat>, policy: Option<RestartPolicy>, loose: Option<ReplyId>)
    requires IncInv(s) && RepliesInv(s, loose) && IntentsInv(s) && n !in s.procs
    ensures IncInv(Created(s, n, port, policy)) && RepliesInv(Created(s, n, port, policy), loose)
    ensures IntentsInv(Created(s, n, port, policy))
  {
    var s2 := Created(s, n, port, policy);
    var i := s.world.nextInc;
    assert History(s.world.signals, i) == [];
    forall a ensures At(s2, i, a) <==> a == InRecord(n) {
      assert !At(s, i, a);
    }
    Appear(s, s2, n);
    Settle(s, Created(s, n, port, policy), loose, loose, Answered(0));
  }

  lemma CreateKeeps(s: State, n: string, port: Option<nat>, policy: Option<RestartPolicy>, loose: Option<ReplyId>)
    requires Inv(s, loose) && n !in s.procs && s.stopAll.None?
    ensures Inv(Created(s, n, port, policy), loose)
  {
    hide CoreInv, TasksInv, TimersInv, AutoInv, BudgetInv, IncInv, RepliesInv, IntentsInv;
    CreateCore(s, n, port, policy);
    CreateTasks(s, n, port, policy);
    CreateTimers(s, n, port, policy);
    CreateBudget(s, n, port, policy);
    CreateMoves(s, n, port, policy, loose);
  }

  // --- Opening, joining and closing a stop-all ----------------------------------------

  lemma OpenBatchCore(s: State, r: ReplyId)
    requires CoreInv(s)
    ensures CoreInv(OpenBatch(s, r))
  {
  }

  lemma OpenBatchTask(s: State, r: ReplyId, g: nat)
    requires CoreInv(s) && TasksInv(s) && g in OpenBatch(s, r).world.tasks
    ensures TaskOk(OpenBatch(s, r), g)
    ensures g in StopAllTasks(s) ==> g !in s.world.tasks
  {
    assert g in s.world.tasks ==> TaskOk(s, g);
    if g in StopAllTasks(s) { assert RecordOk(s, s.world.issued[g]); }
  }

  lemma OpenBatchStopping(s: State, r: ReplyId, n: string)
    requires CoreInv(s) && TasksInv(s) && n in s.procs && OpenBatch(s, r).procs[n].life.Stopping?
    ensures var s2 := OpenBatch(s, r);
            s2.procs[n].generation in s2.world.tasks && s2.world.tasks[s2.procs[n].generation].name == n
  {
    assert RecordOk(s, n);
  }

  lemma OpenBatchTasks(s: State, r: ReplyId)
    requires CoreInv(s) && TasksInv(s)
    ensures TasksInv(OpenBatch(s, r))
    ensures forall g :: g in StopAllTasks(s) ==> g !in s.world.tasks
  {
    hide CoreInv, RecordOk, TaskOk, TornByStopAll, NewTask;
    var s2 := OpenBatch(s, r);
    forall g | g in s2.world.tasks ensures TaskOk(s2, g) && (g in StopAllTasks(s) ==> g !in s.world.tasks) {
      OpenBatchTask(s, r, g);
    }
    forall n | n in s2.procs && s2.procs[n].life.Stopping?
      ensures s2.procs[n].generation in s2.world.tasks && s2.world.tasks[s2.procs[n].generation].name == n
    {
      OpenBatchStopping(s, r, n);
    }
  }

  lemma ParkedTimer(p: ManagedProcess)
    ensures var l := ParkedLife(p.life);
            (AwaitsTimer(l) ==> AwaitsTimer(p.life)) && (TimerNotYetSet(l) ==> TimerNotYetSet(p.life))
            && (FirstLife(l) ==> FirstLife(p.life))
  {
  }

  lemma OpenBatchTimers(s: State, r: ReplyId)
    requires TimersInv(s) && AutoInv(s)
    ensures TimersInv(OpenBatch(s, r)) && AutoInv(OpenBatch(s, r))
  {
    hide AwaitsTimer, TimerNotYetSet, FirstLife, ParkedLife, TornByStopAll, Covered;
    forall n | n in s.procs
      ensures var l := ParkedLife(s.procs[n].life);
              (AwaitsTimer(l) ==> AwaitsTimer(s.procs[n].life)) && (TimerNotYetSet(l) ==> TimerNotYetSet(s.procs[n].life))
              && (FirstLife(l) ==> FirstLife(s.procs[n].life))
    {
      ParkedTimer(s.procs[n]);
    }
  }

  lemma OpenBatchBudget(s: State, r: ReplyId)
    requires BudgetInv(s)
    ensures BudgetInv(OpenBatch(s, r))
  {
  }

  lemma OpenBatchCovers(s: State, r: ReplyId)
    ensures BatchInv(OpenBatch(s, r))
  {
    assert StoppingNames(OpenBatch(s, r).procs) == Covered(s.procs);
  }

  // Where a stop-all moves an incarnation, and back.
  function Torn(s: State, a: Place): Place {
    if a.InRecord? && a.name in s.procs && s.procs[a.name].life.NeedsTeardown()
    then InTask(s.procs[a.name].generation) else a
  }

  function Untorn(s: State, a: Place): Place {
    if a.InTask? && TornByStopAll(s, a.generation) then InRecord(s.world.issued[a.generation]) else a
  }

  lemma OpenBatchForth(s: State, r: ReplyId, i: Incarnation, a: Place)
    requires CoreInv(s) && (forall g :: g in StopAllTasks(s) ==> g !in s.world.tasks)
    requires At(s, i, a)
    ensures At(OpenBatch(s, r), i, Torn(s, a))
  {
    if a.InRecord? && s.procs[a.name].life.NeedsTeardown() {
      assert TornByStopAll(s, s.procs[a.name].generation);
    }
  }

  lemma OpenBatchBack(s: State, r: ReplyId, i: Incarnation, a: Place)
    requires CoreInv(s) && (forall g :: g in StopAllTasks(s) ==> g !in s.world.tasks)
    requires At(OpenBatch(s, r), i, a)
    ensures At(s, i, Untorn(s, a)) && Torn(s, Untorn(s, a)) == a
    ensures ExpectedHistory(OpenBatch(s, r), a) == ExpectedHistory(s, Untorn(s, a))
  {
    if a.InTask? {
      assert a.generation in StopAllTasks(s) <==> TornByStopAll(s, a.generation);
    }
  }

  lemma OpenBatchPlaces(s: State, r: ReplyId)
    requires CoreInv(s) && IncInv(s)
    requires forall g :: g in StopAllTasks(s) ==> g !in s.world.tasks
    ensures IncInv(OpenBatch(s, r))
  {
    hide CoreInv, At;
    var s2 := OpenBatch(s, r);
    forall i: Incarnation, a | At(s, i, a) ensures At(s2, i, Torn(s, a)) {
      OpenBatchForth(s, r, i, a);
    }
    forall i: Incarnation, a | At(s2, i, a)
      ensures At(s, i, Untorn(s, a)) && Torn(s, Untorn(s, a)) == a
      ensures ExpectedHistory(s2, a) == ExpectedHistory(s, Untorn(s, a))
    {
      OpenBatchBack(s, r, i, a);
    }
    Relocate(s, s2, a => Torn(s, a), a => Untorn(s, a));
  }

  lemma OpenBatchKeeps(s: State, r: ReplyId)
    requires Inv(s, Some(r)) && s.stopAll.None?
    ensures Inv(OpenBatch(s, r), None)
  {
    hide CoreInv, TasksInv, TimersInv, AutoInv, BatchInv, BudgetInv, IncInv, RepliesInv, IntentsInv;
    OpenBatchCore(s, r);
    OpenBatchTasks(s, r);
    OpenBatchTimers(s, r);
    OpenBatchBudget(s, r);
    OpenBatchCovers(s, r);
    OpenBatchPlaces(s, r);
    Settle(s, OpenBatch(s, r), Some(r), None, InBatch(0));
    IntentsStep(s, OpenBatch(s, r), Want(Covered(s.procs), Park));
  }

  lemma PushBatchReplies(s: State, r: ReplyId)
    requires RepliesInv(s, Some(r)) && s.stopAll.Some?
    ensures RepliesInv(PushBatchReply(s, r), None)
  {
    Settle(s, PushBatchReply(s, r), Some(r), None, InBatch(|s.stopAll.value.replies|));
  }

  lemma PushBatchReplyKeeps(s: State, r: ReplyId)
    requires Inv(s, Some(r)) && s.stopAll.Some?
    ensures Inv(PushBatchReply(s, r), None)
  {
    hide CoreInv, TasksInv, TimersInv, AutoInv, BatchInv, BudgetInv, IncInv, RepliesInv, IntentsInv;
    TableStays(s, PushBatchReply(s, r));
    TasksStay(s, PushBatchReply(s, r));
    Stay(s, PushBatchReply(s, r));
    PushBatchReplies(s, r);
  }

  lemma CloseBatchReplies(s: State)
    requires RepliesInv(s, None) && s.stopAll.Some? && StoppingNames(s.procs) == {}
    ensures RepliesInv(CloseBatch(s), None)
  {
    assert forall n :: n in s.procs && s.procs[n].life.Stopping? ==> n in StoppingNames(s.procs);
    var base := |s.world.answers|;
    RelocateReplies(s, CloseBatch(s), None, None,
      (a: ReplyPlace) => if a.InBatch? then Answered(base + a.index) else a,
      (a: ReplyPlace) => if a.Answered? && a.index >= base then InBatch(a.index - base) else a,
      Answered(0));
  }

  // With nothing left to stop, no incarnation is held and none is being torn down.
  lemma DoneBatchIsIdle(s: State)
    requires TasksInv(s) && BatchInv(s) && s.stopAll.Some? && s.stopAll.value.remaining == {}
    ensures s.world.tasks == map[] && StoppingNames(s.procs) == {}
    ensures forall n :: n in s.procs ==> s.procs[n].life.Owned() == None
  {
    assert forall n :: n in s.procs && s.procs[n].life.Stopping? ==> n in StoppingNames(s.procs);
    assert forall g :: g in s.world.tasks ==> TaskOk(s, g);
  }

  lemma CloseBatchTable(s: State)
    requires TableInv(s) && IntentsInv(s) && s.stopAll.Some? && s.world.tasks == map[]
    ensures TableInv(CloseBatch(s)) && IntentsInv(CloseBatch(s))
  {
  }

  // Closing discards no live incarnation, waiter or teardown.
  lemma CloseBatchKeeps(s: State)
    requires Inv(s, None) && s.stopAll.Some? && s.stopAll.value.remaining == {}
    ensures Inv(CloseBatch(s), None)
    ensures CloseBatch(s).world.tasks == map[]
  {
    hide CoreInv, TasksInv, TimersInv, AutoInv, BatchInv, BudgetInv, IncInv, RepliesInv, IntentsInv;
    DoneBatchIsIdle(s);
    CloseBatchTable(s);
    CloseBatchReplies(s);
    Stay(s, CloseBatch(s));
  }

  // --- Setting timers and marking spent records -----------------------------------------

  lemma MarkAndTimeCore(s: State)
    requires CoreInv(s)
    ensures CoreInv(MarkAndTime(s))
  {
    hide IdIssued;
    var s2 := MarkAndTime(s);
    forall n | n in s.procs ensures RecordOk(s2, n) && s2.procs[n].id == s.procs[n].id {
      MarkAndTimeRecord(s, n);
    }
  }

  lemma MarkAndTimeRecord(s: State, n: string)
    requires n in s.procs && RecordOk(s, n)
    ensures RecordOk(MarkAndTime(s), n) && MarkAndTime(s).procs[n].id == s.procs[n].id
  {
    hide IdIssued, NewTimers;
  }

  lemma MarkAndTimeTasks(s: State)
    requires TasksInv(s)
    ensures TasksInv(MarkAndTime(s))
  {
    var s2 := MarkAndTime(s);
    forall g | g in s2.world.tasks ensures TaskOk(s2, g) { assert TaskOk(s, g); }
  }

  lemma NewTimersAreNew(s: State, g: nat)
    requires TimersInv(s) && g in NewTimers(s)
    ensures g !in s.world.timers
  {
    assert TimerNotYetSet(s.procs[s.world.issued[g]].life);
  }

  lemma MarkAndTimeTimer(s: State, n: string)
    requires CoreInv(s) && TimersInv(s) && n in s.procs
    ensures var s2 := MarkAndTime(s);
            (AwaitsTimer(s2.procs[n].life) ==> s2.procs[n].generation in s2.world.timers)
            && (TimerNotYetSet(s2.procs[n].life) ==> s2.procs[n].generation !in s2.world.timers)
  {
    hide IdIssued;
    assert RecordOk(s, n);
  }

  lemma MarkAndTimeTimers(s: State)
    requires CoreInv(s) && TimersInv(s)
    ensures TimersInv(MarkAndTime(s))
    ensures forall g :: g in NewTimers(s) ==> g !in s.world.timers
  {
    hide CoreInv, AwaitsTimer, TimerNotYetSet, GetsTimer;
    forall g | g in NewTimers(s) ensures g !in s.world.timers { NewTimersAreNew(s, g); }
    forall n | n in s.procs
      ensures AwaitsTimer(MarkAndTime(s).procs[n].life) ==> MarkAndTime(s).procs[n].generation in MarkAndTime(s).world.timers
      ensures TimerNotYetSet(MarkAndTime(s).procs[n].life) ==> MarkAndTime(s).procs[n].generation !in MarkAndTime(s).world.timers
    {
      MarkAndTimeTimer(s, n);
    }
  }

  lemma MarkAndTimeAuto(s: State)
    requires AutoInv(s) && BudgetInv(s)
    ensures AutoInv(MarkAndTime(s)) && BudgetInv(MarkAndTime(s))
  {
  }

  lemma MarkAndTimeMoves(s: State)
    requires IncInv(s) && RepliesInv(s, None) && IntentsInv(s)
    ensures IncInv(MarkAndTime(s)) && RepliesInv(MarkAndTime(s), None) && IntentsInv(MarkAndTime(s))
  {
    Stay(s, MarkAndTime(s));
    Settle(s, MarkAndTime(s), None, None, Answered(0));
  }

  lemma MarkAndTimeKeeps(s: State)
    requires Inv(s, None) && s.stopAll.None?
    ensures Inv(MarkAndTime(s), None)
  {
    hide CoreInv, TasksInv, TimersInv, AutoInv, BudgetInv, IncInv, RepliesInv, IntentsInv;
    MarkAndTimeCore(s);
    MarkAndTimeTasks(s);
    MarkAndTimeTimers(s);
    MarkAndTimeAuto(s);
    MarkAndTimeMoves(s);
  }
}
