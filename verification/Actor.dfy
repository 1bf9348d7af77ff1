/** The actor itself: an object whose handlers update the table, the batch and the
    published routes in place, proved to do what the state machine says. */
module Actor {
  import opened Options
  import opened Identifiers
  import opened ProcessManager
  import opened Supervisor
  import opened SupervisorInvariants
  import opened SupervisorSteps
  import opened SupervisorCommands
  import opened SupervisorOutcomes
  import PortAllocation

  // What one poll of a teardown task sees: the leader's exit, and whether the capture
  // tasks are done.
  datatype Poll = Poll(exit: Option<Code>, captureDone: bool)

  // The exit a teardown goes by: the one known before, else the first one polled.
  function FirstExit(known: Option<Code>, polls: seq<Poll>): Option<Code>
    decreases |polls|
  {
    if known.Some? || polls == [] then known else FirstExit(polls[0].exit, polls[1..])
  }

  lemma {:induction false} FirstExitSnoc(known: Option<Code>, polls: seq<Poll>, p: Poll)
    ensures FirstExit(known, polls + [p]) ==
            if FirstExit(known, polls).Some? then FirstExit(known, polls) else p.exit
    decreases |polls|
  {
    if known.None? && polls != [] {
      assert (polls + [p])[1..] == polls[1..] + [p];
      FirstExitSnoc(polls[0].exit, polls[1..], p);
    } else if known.None? {
      assert (polls + [p])[1..] == [];
    }
  }

  lemma {:induction false} FirstExitStays(known: Option<Code>, polls: seq<Poll>, k: nat)
    requires k <= |polls| && FirstExit(known, polls[..k]).Some?
    ensures FirstExit(known, polls) == FirstExit(known, polls[..k])
    decreases |polls| - k
  {
    if k < |polls| {
      assert polls[..k + 1] == polls[..k] + [polls[k]];
      FirstExitSnoc(known, polls[..k], polls[k]);
      FirstExitStays(known, polls, k + 1);
    } else {
      assert polls[..k] == polls;
    }
  }

  // The teardown task: `polls` is what it sees until its grace period runs out and
  // `reaped` the outcome of the final wait. The group always gets TERM then KILL, and is
  // reaped last; an exit seen earlier decides the code.
  method RunTeardown(inc: Incarnation, known: Option<Code>, polls: seq<Poll>, reaped: Option<Code>)
    returns (code: Code, signals: seq<SignalEvent>)
    ensures signals == [SignalEvent(inc, Term), SignalEvent(inc, Kill), SignalEvent(inc, Reap)]
    ensures code == TeardownCode(FirstExit(known, polls), reaped)
  {
    signals := [SignalEvent(inc, Term)];
    var leaderExit := known;
    var k := 0;
    while k < |polls|
      invariant k <= |polls| && leaderExit == FirstExit(known, polls[..k])
    {
      if leaderExit.None? {
        leaderExit := polls[k].exit;
      }
      assert polls[..k + 1] == polls[..k] + [polls[k]];
      FirstExitSnoc(known, polls[..k], polls[k]);
      k := k + 1;
      if leaderExit.Some? && polls[k - 1].captureDone {
        break;
      }
    }
    if k == |polls| { assert polls[..k] == polls; } else { FirstExitStays(known, polls, k); }
    signals := signals + [SignalEvent(inc, Kill)];
    code := TeardownCode(leaderExit, reaped);
    signals := signals + [SignalEvent(inc, Reap)];
  }

  // What the handlers rely on to look records up and to start teardowns.
  ghost predicate Clear(s: State) {
    PortAllocation.InRange(s.nextAutoPort)
    && (forall m, n :: m in s.procs && n in s.procs && s.procs[m].id == s.procs[n].id ==> m == n)
    && (forall n :: n in s.procs && !s.procs[n].life.Stopping? ==> s.procs[n].generation !in s.world.tasks)
  }

  lemma InvIsClear(s: State)
    requires CoreInv(s) && TasksInv(s)
    ensures Clear(s)
  {
    forall n | n in s.procs && !s.procs[n].life.Stopping? ensures s.procs[n].generation !in s.world.tasks {
      NoTeardownYet(s, n);
    }
  }

  lemma InvHasCore(s: State, loose: Option<ReplyId>)
    requires Inv(s, loose)
    ensures CoreInv(s) && TasksInv(s) && TimersInv(s)
  {
  }

  lemma OwnName(s: State, n: string)
    requires CoreInv(s) && n in s.procs
    ensures s.procs[n].name == n
  {
    assert RecordOk(s, n);
  }

  // Exits being noticed does not get in the way.
  lemma StaysClear(s: State)
    requires Clear(s)
    ensures Clear(Arrive(s)) && Clear(Refresh(Arrive(s)))
  {
  }

  lemma RefreshCore(s: State)
    requires CoreInv(s)
    ensures CoreInv(Refresh(s))
  {
    hide IdIssued;
    forall n | n in s.procs ensures RecordOk(Refresh(s), n) { assert RecordOk(s, n); }
  }

  lemma ArriveCore(s: State)
    requires CoreInv(s)
    ensures CoreInv(Arrive(s))
  {
    hide IdIssued;
    forall n | n in s.procs ensures RecordOk(Arrive(s), n) { assert RecordOk(s, n); }
  }

  // Setting the restart count first and stopping next is one change of the record.
  lemma RecountedStop(s: State, n: string, next: AfterStop, ws: seq<Waiter>, count: nat)
    requires n in s.procs
    ensures BeginStop(s.(procs := s.procs[n := s.procs[n].(restartCount := count)]), n, next, ws, count)
         == BeginStop(s, n, next, ws, count)
  {
  }

  lemma AllParked(procs: Table, procs': Table, remaining: set<string>)
    requires procs'.Keys == procs.Keys
    requires forall n :: n in procs ==> procs'[n] == procs[n].(life := ParkedLife(procs[n].life))
    requires forall n :: n in remaining <==> n in procs && (procs[n].life.Stopping? || procs[n].life.NeedsTeardown())
    ensures procs' == ParkAll(procs) && remaining == Covered(procs)
  {
  }

  lemma AllScheduled(procs: Table, procs': Table)
    requires procs'.Keys == procs.Keys
    requires forall n :: n in procs ==> procs'[n] == Scheduled(procs[n])
    ensures procs' == ScheduleAll(procs)
  {
  }

  lemma ScheduledRecords(p: ManagedProcess)
    ensures Restartable(p) ==> p.life.Exited? && Scheduled(p) == p.(life := p.life.(restartTimer := true))
    ensures Spent(p) ==> p.life.Exited? && Scheduled(p) == p.(life := p.life.(why := Exhausted))
    ensures !Restartable(p) && !Spent(p) ==> Scheduled(p) == p
    ensures !(Restartable(p) && Spent(p))
  {
  }

  // What a record becomes after its teardown does not depend on the life it had.
  lemma ParkedFirst(s: State, s2: State, p: ManagedProcess, q: ManagedProcess, next: AfterStop, code: Code, ok: bool)
    requires q == p.(life := q.life)
    requires s2.nextId == s.nextId && s2.nextGeneration == s.nextGeneration && s2.world.nextInc == s.world.nextInc
    ensures AfterTeardown(s2, q, next, code, ok) == AfterTeardown(s, p, next, code, ok)
  {
  }

  // The part of a map issued for `names`.
  function IssuedTo<T>(issued: map<nat, string>, names: set<string>, m: map<nat, T>): map<nat, T> {
    map g | g in m && g in issued && issued[g] in names :: m[g]
  }

  // When `n` joins the names, exactly its own entry joins the map.
  lemma OneMoreIssued<T>(issued: map<nat, string>, names: set<string>, n: string, base: map<nat, T>, m: map<nat, T>, g: nat)
    requires n !in names
    requires forall h :: h in m && h in issued && issued[h] == n ==> h == g
    ensures g in m && g in issued && issued[g] == n ==>
              base + IssuedTo(issued, names + {n}, m) == (base + IssuedTo(issued, names, m))[g := m[g]]
    ensures !(g in m && g in issued && issued[g] == n) ==> IssuedTo(issued, names + {n}, m) == IssuedTo(issued, names, m)
  {
  }

  lemma NoneIssued<T>(issued: map<nat, string>, base: map<nat, T>, m: map<nat, T>)
    ensures base + IssuedTo(issued, {}, m) == base
  {
  }

  // The tasks a stop-all starts: one per record with something to tear down.
  lemma TaskOfRecord(s: State, n: string)
    requires CoreInv(s) && n in s.procs
    ensures forall g :: g in StopAllTasks(s) && s.world.issued[g] == n ==> g == s.procs[n].generation
    ensures s.procs[n].generation in s.world.issued && s.world.issued[s.procs[n].generation] == n
    ensures s.procs[n].life.NeedsTeardown() <==> s.procs[n].generation in StopAllTasks(s)
    ensures s.procs[n].life.NeedsTeardown() ==> StopAllTasks(s)[s.procs[n].generation] == NewTask(s.procs[n])
  {
    assert RecordOk(s, n);
    assert TornByStopAll(s, s.procs[n].generation) <==> s.procs[n].life.NeedsTeardown();
  }

  lemma StopAllTasksIssued(s: State)
    ensures IssuedTo(s.world.issued, s.procs.Keys, StopAllTasks(s)) == StopAllTasks(s)
  {
  }

  lemma NewTimersIssued(s: State, names: set<string>)
    requires names == set n | n in s.procs && Restartable(s.procs[n])
    ensures IssuedTo(s.world.issued, names, NewTimers(s)) == NewTimers(s)
  {
  }

  lemma TimerOfRecord(s: State, n: string)
    requires CoreInv(s) && n in s.procs && Restartable(s.procs[n])
    ensures forall g :: g in NewTimers(s) && s.world.issued[g] == n ==> g == s.procs[n].generation
    ensures s.procs[n].generation in NewTimers(s) && NewTimers(s)[s.procs[n].generation] == n
    ensures s.procs[n].generation in s.world.issued && s.world.issued[s.procs[n].generation] == n
  {
    assert RecordOk(s, n);
    assert GetsTimer(s, s.procs[n].generation);
  }

  class ProcessManagerActor {
    var procs: Table
    var nextId: nat
    var nextGeneration: nat
    var stopAll: Option<StopAllBatch>
    var published: map<string, nat>
    var proxyPort: Option<nat>
    const ports: PortAllocation.PortAllocator
    // Everything outside the actor: leaders, tasks and timers in flight, replies sent.
    var world: World

    ghost function Now(): State
      reads this, ports
    {
      State(procs, nextId, nextGeneration, stopAll, published, proxyPort, ports.proxyEnabled, ports.nextAutoPort, world)
    }

    ghost predicate Valid()
      reads this, ports
    {
      Inv(Now(), None)
    }

    constructor ()
      ensures Valid() && Now() == Initial && fresh(ports)
    {
      procs, nextId, nextGeneration, stopAll := map[], 1, 0, None;
      published, proxyPort, world := map[], None, InitialWorld;
      ports := new PortAllocation.PortAllocator();
      new;
      assert Now() == Initial;
    }

    // --- Pieces ---------------------------------------------------------------------

    method Receive() returns (r: ReplyId)
      modifies this`world
      ensures r == old(world).nextReply && Now() == Arrive(old(Now()))
    {
      r := world.nextReply;
      world := world.(nextReply := r + 1);
    }

    method Send(r: ReplyId, resp: Response)
      modifies this`world
      ensures Now() == Reply(old(Now()), r, resp)
    {
      world := world.(answers := world.answers + [Answer(r, resp)]);
    }

    method PublishProxyState()
      modifies this`published
      ensures Now() == Publish(old(Now()))
    {
      var newMap := RunningPorts(procs);
      if published != newMap {
        published := newMap;
      }
    }

    method RefreshExitStates() returns (changed: bool)
      modifies this`procs
      ensures Now() == Refresh(old(Now()))
      ensures changed <==> Unobserved(old(procs), world.exits)
    {
      var todo := procs.Keys;
      changed := false;
      while todo != {}
        invariant todo <= procs.Keys == old(procs).Keys
        invariant forall n :: n in procs ==>
                    procs[n] == if n in todo then old(procs)[n] else Observed(old(procs)[n], world.exits)
        invariant changed <==> exists n :: n in old(procs) && n !in todo
                                 && old(procs)[n].life.Running? && old(procs)[n].life.inc in world.exits
      {
        var n :| n in todo;
        todo := todo - {n};
        var p := procs[n];
        if p.life.Running? && Peek(world.exits, p.life.inc).Some? {
          procs := procs[n := p.(life := Exited(world.exits[p.life.inc], Natural, Some(p.life.inc), false))];
          changed := true;
        }
      }
      assert procs == ObserveAll(old(procs), world.exits);
    }

    // Walks the table in any order; the ids being distinct, the order does not matter.
    method Find(target: string) returns (key: Option<string>)
      requires forall m, n :: m in procs && n in procs && procs[m].id == procs[n].id ==> m == n
      ensures key == FindKey(procs, target)
    {
      if target in procs {
        return Some(target);
      }
      var todo := procs.Keys;
      while todo != {}
        invariant todo <= procs.Keys
        invariant forall n :: n in procs && n !in todo ==> procs[n].id != target
      {
        var n :| n in todo;
        if procs[n].id == target {
          return Some(n);
        }
        todo := todo - {n};
      }
      key := None;
    }

    // Hands the incarnation of `n` to a teardown task. The record must not be Stopping
    // and no teardown of its generation may be in flight.
    method StartTeardown(n: string, next: AfterStop, waiter: Option<Waiter>)
      requires n in procs && !procs[n].life.Stopping? && procs[n].generation !in world.tasks
      modifies this`procs, this`world
      ensures Now() == BeginStop(old(Now()), n, next, if waiter.Some? then [waiter.value] else [], old(procs)[n].restartCount)
    {
      var p := procs[n];
      var waiters := match waiter case Some(w) => [w] case None => [];
      var leaderExit, inc;
      match p.life {
        case Running(i) => inc, leaderExit := Some(i), None;
        case Exited(code, _, zombie, _) => inc, leaderExit := zombie, Some(code);
      }
      procs := procs[n := p.(life := Stopping(leaderExit, next, waiters))];
      var phase := if inc.Some? then Started else Reported(leaderExit.GetOr(None));
      world := world.(tasks := world.tasks[p.generation := Teardown(p.name, inc, leaderExit, phase)],
                      intents := world.intents + [Want({n}, next)]);
    }

    // --- Spawn ------------------------------------------------------------------------

    method SpawnProcess(req: SpawnRequest) returns (resp: Response)
      requires ports.Valid()
      modifies this, ports
      ensures ports.Valid()
      ensures (Now(), resp) == Supervisor.SpawnProcess(old(Now()), req)
    {
      var id := IdString(nextId);
      nextId := nextId + 1;
      var name := req.name.GetOr(id);
      if UnsafeName(name) {
        return Refused(InvalidName);
      }
      if ports.proxyEnabled && !DnsLabel(name) {
        return Refused(InvalidName);
      }
      var port := req.port;
      if port.None? && ports.proxyEnabled {
        port := ports.AutoAssignPort(HeldPorts(procs), req.bindable);
        if port.None? {
          return Refused(NoFreePort);
        }
      }
      if name in procs {
        return Refused(NameTaken);
      }
      if !req.ok {
        return Refused(CannotSpawn);
      }
      nextGeneration := nextGeneration + 1;
      procs := procs[name := ManagedProcess(name, id, port, req.policy, 0, nextGeneration, Running(world.nextInc))];
      world := world.(nextInc := world.nextInc + 1, issued := world.issued[nextGeneration := name],
                      budget := world.budget + [Reset(name)]);
      resp := RunOk(name, id, port);
    }

    method Spawn(req: SpawnRequest)
      requires Clear(Now())
      modifies this, ports
      ensures Now() == HandleSpawn(Arrive(old(Now())), old(world).nextReply, req)
    {
      ghost var s0 := Now();
      StaysClear(s0);
      var r := Receive();
      if stopAll.Some? {
        Send(r, Refused(StopAllInProgress));
      } else {
        var resp := SpawnProcess(req);
        PublishProxyState();
        Send(r, resp);
      }
    }

    // --- Stop and restart ----------------------------------------------------------------

    method Stop(target: string)
      requires Clear(Now())
      modifies this
      ensures Now() == HandleStop(Arrive(old(Now())), old(world).nextReply, target)
    {
      ghost var s0 := Now();
      StaysClear(s0);
      var r := Receive();
      var changed := RefreshExitStates();
      ghost var s1 := Now();
      var found := Find(target);
      FindKeySound(procs, target);
      if found.None? {
        Send(r, NotFound(target));
      } else {
        var n := found.value;
        var p := procs[n];
        match p.life {
          case Stopping(e, next, waiters) =>
            procs := procs[n := p.(life := Stopping(e, Park, waiters + [StopWaiter(r)]))];
            world := world.(intents := world.intents + [Want({n}, Park)]);
            assert Now() == JoinStop(s1, n, Park, StopWaiter(r));
          case Exited(_, _, None, _) =>
            Send(r, Stopped(n));
          case _ =>
            StartTeardown(n, Park, Some(StopWaiter(r)));
        }
      }
    }

    method Restart(target: string)
      requires Clear(Now())
      modifies this
      ensures Now() == HandleRestart(Arrive(old(Now())), old(world).nextReply, target)
    {
      ghost var s0 := Now();
      StaysClear(s0);
      var r := Receive();
      if stopAll.Some? {
        Send(r, Refused(StopAllInProgress));
      } else {
        var changed := RefreshExitStates();
        ghost var s1 := Now();
        var found := Find(target);
        FindKeySound(procs, target);
        if found.None? {
          Send(r, NotFound(target));
        } else {
          var n := found.value;
          var p := procs[n];
          if p.life.Stopping? {
            procs := procs[n := p.(life := p.life.(next := Respawn(Manual), waiters := p.life.waiters + [RestartWaiter(r)]))];
            world := world.(intents := world.intents + [Want({n}, Respawn(Manual))]);
            assert Now() == JoinStop(s1, n, Respawn(Manual), RestartWaiter(r));
          } else {
            StartTeardown(n, Respawn(Manual), Some(RestartWaiter(r)));
          }
        }
      }
    }

    // --- Stop-all ------------------------------------------------------------------------

    method ParkOne(n: string) returns (touched: bool)
      requires n in procs
      modifies this`procs, this`world
      ensures procs == old(procs)[n := old(procs)[n].(life := ParkedLife(old(procs)[n].life))]
      ensures touched <==> old(procs)[n].life.Stopping? || old(procs)[n].life.NeedsTeardown()
      ensures world == if old(procs)[n].life.NeedsTeardown()
                       then old(world).(tasks := old(world).tasks[old(procs)[n].generation := NewTask(old(procs)[n])])
                       else old(world)
    {
      var p := procs[n];
      touched := true;
      if p.life.Stopping? {
        procs := procs[n := p.(life := p.life.(next := Park))];
      } else if p.life.NeedsTeardown() {
        procs := procs[n := p.(life := Stopping(p.life.LeaderExit(), Park, []))];
        world := world.(tasks := world.tasks[p.generation := NewTask(p)]);
      } else {
        touched := false;
        assert procs[n := p] == procs;
      }
    }

    // Parks or begins to park every record with something left, in any order.
    method ParkRecords() returns (remaining: set<string>)
      requires CoreInv(Now())
      modifies this`procs, this`world
      ensures procs == ParkAll(old(procs)) && remaining == Covered(old(procs))
      ensures world == old(world).(tasks := old(world).tasks + StopAllTasks(old(Now())))
    {
      ghost var s0 := Now();
      ghost var all := StopAllTasks(s0);
      hide CoreInv, NewTask, StopAllTasks, IssuedTo, ParkedLife, ParkAll, Covered;
      StopAllTasksIssued(s0);
      NoneIssued(s0.world.issued, s0.world.tasks, all);
      var todo, done := procs.Keys, {};
      remaining := {};
      while todo != {}
        invariant todo !! done && todo + done == s0.procs.Keys == procs.Keys
        invariant forall n :: n in procs ==>
                    procs[n] == if n in todo then s0.procs[n] else s0.procs[n].(life := ParkedLife(s0.procs[n].life))
        invariant forall n :: n in remaining <==> n in done && (s0.procs[n].life.Stopping? || s0.procs[n].life.NeedsTeardown())
        invariant world == s0.world.(tasks := s0.world.tasks + IssuedTo(s0.world.issued, done, all))
      {
        var n :| n in todo;
        TaskOfRecord(s0, n);
        OneMoreIssued(s0.world.issued, done, n, s0.world.tasks, all, procs[n].generation);
        todo, done := todo - {n}, done + {n};
        var touched := ParkOne(n);
        if touched {
          remaining := remaining + {n};
        }
      }
      assert done == s0.procs.Keys;
      AllParked(s0.procs, procs, remaining);
    }

    method FinishStopAll()
      modifies this`procs, this`stopAll, this`world
      ensures Now() == CloseBatch(old(Now()))
    {
      ghost var s0 := Now();
      if stopAll.None? {
        return;
      }
      var batch := stopAll.value;
      stopAll := None;
      procs := map[];
      var k := 0;
      ghost var before := world;
      while k < |batch.replies|
        invariant k <= |batch.replies| && procs == map[] && stopAll == None
        invariant world == before.(answers := before.answers + BatchAnswers(batch.replies)[..k])
      {
        world := world.(answers := world.answers + [Answer(batch.replies[k], AllStopped)]);
        assert BatchAnswers(batch.replies)[..k + 1] == BatchAnswers(batch.replies)[..k] + [Answer(batch.replies[k], AllStopped)];
        k := k + 1;
      }
      assert BatchAnswers(batch.replies)[..k] == BatchAnswers(batch.replies);
    }

    method StopAll()
      requires CoreInv(Now())
      modifies this
      ensures Now() == HandleStopAll(Arrive(old(Now())), old(world).nextReply)
    {
      ghost var s0 := Now();
      hide CoreInv;
      ArriveCore(s0);
      var r := Receive();
      if stopAll.Some? {
        stopAll := Some(stopAll.value.(replies := stopAll.value.replies + [r]));
        assert Now() == PushBatchReply(Arrive(s0), r);
      } else {
        var changed := RefreshExitStates();
        ghost var s1 := Now();
        RefreshCore(Arrive(s0));
        var remaining := ParkRecords();
        world := world.(intents := world.intents + [Want(remaining, Park)]);
        stopAll := Some(StopAllBatch(remaining, [r]));
        assert Now() == OpenBatch(s1, r);
        if remaining == {} {
          FinishStopAll();
        }
        PublishProxyState();
      }
    }

    // --- Queries ---------------------------------------------------------------------------

    method Status()
      requires Clear(Now())
      modifies this
      ensures Now() == HandleStatus(Arrive(old(Now())), old(world).nextReply)
    {
      ghost var s0 := Now();
      StaysClear(s0);
      var r := Receive();
      var changed := RefreshExitStates();
      if changed {
        PublishProxyState();
      }
      Send(r, StatusReport(Infos(procs)));
    }

    method IsProcessExited(target: string)
      requires Clear(Now())
      modifies this
      ensures Now() == HandleIsExited(Arrive(old(Now())), old(world).nextReply, target)
    {
      ghost var s0 := Now();
      StaysClear(s0);
      var r := Receive();
      var changed := RefreshExitStates();
      var found := Find(target);
      FindKeySound(procs, target);
      var exited := None;
      if found.Some? {
        exited := match procs[found.value].life
          case Running(_) => None
          case Exited(code, _, _, _) => Some(code)
          case Stopping(leaderExit, _, _) => leaderExit;
      }
      PublishProxyState();
      Send(r, ExitReported(exited));
    }

    method EnableProxy(port: nat)
      requires Clear(Now())
      modifies this, ports
      ensures Now() == HandleEnableProxy(Arrive(old(Now())), old(world).nextReply, port)
    {
      ghost var s0 := Now();
      StaysClear(s0);
      var r := Receive();
      if proxyPort.Some? {
        Send(r, ProxyPort(proxyPort));
      } else {
        proxyPort := Some(port);
        ports.EnableProxy();
        PublishProxyState();
        Send(r, ProxyPort(None));
      }
    }

    // --- Automatic restarts ------------------------------------------------------------------

    // Own exits not yet dealt with that the policy brings back, by whether the limit is reached.
    method ClassifyRestartCandidates() returns (restartable: set<string>, exhausted: set<string>)
      ensures restartable == set n | n in procs && Restartable(procs[n])
      ensures exhausted == set n | n in procs && Spent(procs[n])
      ensures forall n :: n in restartable <==>
                n in procs && OwnExit(procs[n].life) && BroughtBack(procs[n].policy, procs[n].life.code)
                && !LimitReached(procs[n].policy, procs[n].restartCount)
      ensures forall n :: n in exhausted <==>
                n in procs && OwnExit(procs[n].life) && BroughtBack(procs[n].policy, procs[n].life.code)
                && LimitReached(procs[n].policy, procs[n].restartCount)
    {
      forall n | n in procs { CandidateIs(procs[n]); }
      restartable, exhausted := {}, {};
      var todo := procs.Keys;
      while todo != {}
        invariant todo <= procs.Keys
        invariant restartable == set n | n in procs && n !in todo && Restartable(procs[n])
        invariant exhausted == set n | n in procs && n !in todo && Spent(procs[n])
      {
        var n :| n in todo;
        todo := todo - {n};
        var p := procs[n];
        if p.life.Exited? && p.life.why == Natural && !p.life.restartTimer && p.policy.Some? {
          var policy := p.policy.value;
          if policy.mode.ShouldRestart(p.life.code) {
            if policy.maxRestarts.Some? && p.restartCount >= policy.maxRestarts.value {
              exhausted := exhausted + {n};
            } else {
              restartable := restartable + {n};
            }
          }
        }
      }
    }

    method MarkExhausted(exhausted: set<string>)
      requires exhausted == set n | n in procs && Spent(procs[n])
      modifies this`procs
      ensures procs.Keys == old(procs).Keys
      ensures forall n :: n in procs ==> procs[n] == if n in exhausted then Scheduled(old(procs)[n]) else old(procs)[n]
    {
      var todo := exhausted;
      while todo != {}
        invariant todo <= exhausted <= procs.Keys == old(procs).Keys
        invariant forall n :: n in procs ==>
                    procs[n] == if n in exhausted && n !in todo then Scheduled(old(procs)[n]) else old(procs)[n]
      {
        var n :| n in todo;
        todo := todo - {n};
        procs := procs[n := procs[n].(life := procs[n].life.(why := Exhausted))];
      }
    }

    method SetTimer(n: string)
      requires n in procs && Restartable(procs[n])
      modifies this`procs, this`world
      ensures procs == old(procs)[n := Scheduled(old(procs)[n])]
      ensures world == old(world).(timers := old(world).timers[old(procs)[n].generation := n])
    {
      var p := procs[n];
      procs := procs[n := p.(life := p.life.(restartTimer := true))];
      world := world.(timers := world.timers[p.generation := n]);
    }

    // Sets the timers of the restartable records; none of them has one in flight.
    method SetTimers(restartable: set<string>, ghost s0: State)
      requires CoreInv(s0)
      requires restartable == set n | n in s0.procs && Restartable(s0.procs[n])
      requires procs.Keys == s0.procs.Keys
      requires forall n :: n in procs ==> procs[n] == if Spent(s0.procs[n]) then Scheduled(s0.procs[n]) else s0.procs[n]
      requires world == s0.world
      modifies this`procs, this`world
      ensures procs == ScheduleAll(s0.procs)
      ensures world == s0.world.(timers := s0.world.timers + NewTimers(s0))
    {
      ghost var all := NewTimers(s0);
      hide CoreInv, IssuedTo, NewTimers, Scheduled, ScheduleAll, Restartable, Spent;
      NewTimersIssued(s0, restartable);
      NoneIssued(s0.world.issued, s0.world.timers, all);
      forall n | n in s0.procs ensures procs[n] == if n in restartable then s0.procs[n] else Scheduled(s0.procs[n]) {
        ScheduledRecords(s0.procs[n]);
      }
      var todo, done := restartable, {};
      while todo != {}
        invariant todo !! done && todo + done == restartable && procs.Keys == s0.procs.Keys
        invariant forall n :: n in procs ==>
                    procs[n] == if n in todo then s0.procs[n] else Scheduled(s0.procs[n])
        invariant world == s0.world.(timers := s0.world.timers + IssuedTo(s0.world.issued, done, all))
      {
        var n :| n in todo;
        TimerOfRecord(s0, n);
        OneMoreIssued(s0.world.issued, done, n, s0.world.timers, all, procs[n].generation);
        todo, done := todo - {n}, done + {n};
        SetTimer(n);
      }
      assert done == restartable;
      AllScheduled(s0.procs, procs);
    }

    method ScheduleRestarts()
      requires CoreInv(Now())
      modifies this`procs, this`world, this`published
      ensures Now() == Supervisor.ScheduleRestarts(old(Now()))
    {
      if stopAll.Some? {
        return;
      }
      ghost var s0 := Now();
      var restartable, exhausted := ClassifyRestartCandidates();
      MarkExhausted(exhausted);
      assert exhausted != {} <==> AnySpent(s0.procs) by {
        assert forall n :: n in exhausted <==> n in s0.procs && Spent(s0.procs[n]);
      }
      SetTimers(restartable, s0);
      assert Now() == MarkAndTime(s0);
      if exhausted != {} {
        PublishProxyState();
      }
    }

    method Tick()
      requires CoreInv(Now())
      modifies this
      ensures Now() == HandleTick(old(Now()))
    {
      ghost var s0 := Now();
      RefreshCore(s0);
      var changed := RefreshExitStates();
      if changed {
        PublishProxyState();
      }
      ScheduleRestarts();
    }

    // Sets the restart count and begins the stop.
    method StartRestart(n: string, reason: RespawnReason, count: nat)
      requires n in procs && !procs[n].life.Stopping? && procs[n].generation !in world.tasks
      modifies this`procs, this`world
      ensures Now() == BeginStop(old(Now()), n, Respawn(reason), [], count)
    {
      RecountedStop(Now(), n, Respawn(reason), [], count);
      procs := procs[n := procs[n].(restartCount := count)];
      StartTeardown(n, Respawn(reason), None);
    }

    method AutoRestart(g: nat)
      requires Clear(Now()) && g in world.timers
      modifies this
      ensures Now() == HandleAutoRestart(old(Now()), g)
    {
      hide BeginStop, FindKey;
      ghost var s0 := Now();
      StaysClear(s0);
      var name := world.timers[g];
      world := world.(timers := world.timers - {g});
      if stopAll.None? {
        var found := Find(name);
        FindKeySound(procs, name);
        if found.Some? {
          var n := found.value;
          var p := procs[n];
          if p.generation == g && p.life.Exited? && p.life.why == Natural && p.life.restartTimer {
            world := world.(autoRestarts := world.autoRestarts + [g]);
            StartRestart(n, Auto, p.restartCount + 1);
          }
        }
      }
    }

    method WatchRestart(g: nat)
      requires Clear(Now()) && g in world.issued
      modifies this
      ensures Now() == HandleWatchRestart(old(Now()), g)
    {
      ghost var s0 := Now();
      StaysClear(s0);
      if stopAll.None? {
        var found := Find(world.issued[g]);
        FindKeySound(procs, world.issued[g]);
        if found.Some? {
          var n := found.value;
          var p := procs[n];
          if p.generation == g && !p.life.Stopping? && !(p.life.Exited? && p.life.why == ManualStop) {
            world := world.(budget := world.budget + [Reset(n)]);
            StartRestart(n, Watch, 0);
          }
        }
      }
    }

    // --- Completion of a teardown ----------------------------------------------------------

    // Spawns a fresh incarnation into an existing record; `ok` is whether the operating
    // system starts it.
    method RespawnRecord(n: string, reason: RespawnReason, ok: bool) returns (resp: Response)
      requires n in procs && procs[n].name == n && procs[n].life.Exited?
      modifies this`procs, this`nextId, this`nextGeneration, this`world
      ensures var q := AfterTeardown(old(Now()), old(procs)[n], Respawn(reason), old(procs)[n].life.code, ok);
              procs == old(procs)[n := q] && resp == RestartReply(q, Respawn(reason), ok)
      ensures nextId == old(nextId) + 1 && nextGeneration == old(nextGeneration) + 1
      ensures world == old(world).(
                nextInc := if ok then old(world).nextInc + 1 else old(world).nextInc,
                issued := if ok then old(world).issued[nextGeneration := n] else old(world).issued,
                budget := old(world).budget + RespawnEvents(n, Respawn(reason)))
    {
      var p := procs[n];
      if reason == Manual {
        p := p.(restartCount := 0);
        world := world.(budget := world.budget + [Reset(n)]);
      }
      if reason == Auto {
        world := world.(budget := world.budget + [AutoRespawn(n)]);
      }
      nextGeneration := nextGeneration + 1;
      var id := IdString(nextId);
      nextId := nextId + 1;
      if ok {
        procs := procs[n := p.(id := id, generation := nextGeneration, life := Running(world.nextInc))];
        world := world.(nextInc := world.nextInc + 1, issued := world.issued[nextGeneration := n]);
        resp := RunOk(n, id, p.port);
      } else {
        procs := procs[n := p.(life := Exited(p.life.code, SpawnFailed, None, false))];
        resp := Refused(CannotSpawn);
      }
    }

    method AnswerWaiters(waiters: seq<Waiter>, n: string, restartReply: Response)
      modifies this`world
      ensures world == old(world).(answers := old(world).answers + WaiterAnswers(waiters, n, restartReply))
    {
      var k := 0;
      ghost var all := WaiterAnswers(waiters, n, restartReply);
      while k < |waiters|
        invariant k <= |waiters|
        invariant world == old(world).(answers := old(world).answers + all[..k])
      {
        match waiters[k] {
          case StopWaiter(r) => world := world.(answers := world.answers + [Answer(r, Stopped(n))]);
          case RestartWaiter(r) => world := world.(answers := world.answers + [Answer(r, restartReply)]);
        }
        assert all[..k + 1] == all[..k] + [all[k]];
        k := k + 1;
      }
      assert all[..k] == all;
    }

    // Parks the record or brings it back, as `next` says.
    method FollowIntent(n: string, next: AfterStop, code: Code, ok: bool) returns (restartReply: Response)
      requires n in procs && procs[n].name == n
      modifies this`procs, this`nextId, this`nextGeneration, this`world
      ensures var q := AfterTeardown(old(Now()), old(procs)[n], next, code, ok);
              procs == old(procs)[n := q] && restartReply == RestartReply(q, next, ok)
      ensures nextId == if next.Park? then old(nextId) else old(nextId) + 1
      ensures nextGeneration == if next.Park? then old(nextGeneration) else old(nextGeneration) + 1
      ensures world == old(world).(
                nextInc := if next.Respawn? && ok then old(world).nextInc + 1 else old(world).nextInc,
                issued := if next.Respawn? && ok then old(world).issued[nextGeneration := n] else old(world).issued,
                budget := old(world).budget + RespawnEvents(n, next))
    {
      var p := procs[n];
      procs := procs[n := p.(life := Exited(code, ManualStop, None, false))];
      ParkedFirst(old(Now()), Now(), p, procs[n], next, code, ok);
      restartReply := Refused(SupersededByStop);
      if next.Respawn? {
        restartReply := RespawnRecord(n, next.reason, ok);
      }
    }

    // The branches the source keeps for a record that is gone, moved on or no longer
    // Stopping are dead: the completion always finds the record it was issued for.
    method StopFinished(g: nat, ok: bool)
      requires CoreInv(Now()) && TasksInv(Now()) && g in world.tasks && world.tasks[g].phase.Reported?
      modifies this
      ensures Now() == HandleStopFinished(old(Now()), g, ok)
    {
      ghost var s0 := Now();
      hide CoreInv, TasksInv, FindKey, RecordOk, TaskOk, AfterTeardown, WaiterAnswers, RestartReply, RespawnEvents, RunningPorts;
      StopFinishedFindsItsRecord(s0, g, ok);
      var n, code := world.tasks[g].name, world.tasks[g].phase.code;
      world := world.(tasks := world.tasks - {g});
      var p := procs[n];
      assert p.name == n by { OwnName(s0, n); }
      var next, waiters := p.life.next, p.life.waiters;
      var restartReply := FollowIntent(n, next, code, ok);
      AnswerWaiters(waiters, n, restartReply);
      world := world.(intents := world.intents + [Outcome(n, next)]);
      if stopAll.Some? {
        stopAll := Some(stopAll.value.(remaining := stopAll.value.remaining - {n}));
      }
      assert Now() == FinishTeardown(TakeTask(s0, g), n, code, ok);
      if stopAll.Some? && stopAll.value.remaining == {} {
        FinishStopAll();
      }
      PublishProxyState();
    }

    // Any command, timer, file change or completed teardown that reaches the actor: it
    // does what the state machine says and every invariant holds again.
    method Handle(step: Step)
      requires Valid() && Enabled(Now(), step)
      requires !step.LeaderExitsStep? && !step.TermStep? && !step.PollStep? && !step.KillStep? && !step.ReapStep?
      modifies this, ports
      ensures ports.Valid() && PortAllocation.InRange(old(ports.nextAutoPort))
      ensures Now() == Apply(old(Now()), step)
      ensures Valid()
    {
      ghost var s0 := Now();
      InvHasCore(s0, None);
      InvIsClear(s0);
      match step {
        case SpawnStep(req) => Spawn(req);
        case StopStep(target) => Stop(target);
        case StopAllStep => StopAll();
        case RestartStep(target) => Restart(target);
        case StatusStep => Status();
        case IsExitedStep(target) => IsProcessExited(target);
        case EnableProxyStep(port) => EnableProxy(port);
        case TickStep => Tick();
        case AutoRestartStep(g) => AutoRestart(g);
        case WatchRestartStep(g) => WatchRestart(g);
        case StopFinishedStep(g, ok) => StopFinished(g, ok);
      }
      StepKeeps(s0, step);
    }
  }
}
