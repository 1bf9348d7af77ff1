/** The supervisor as a state machine: the actor's table, the world around it
    (leaders, teardown tasks, timers in flight) and what each command does to both
    (src/daemon/actor.rs). */
module Supervisor {
  import opened Options
  import opened Identifiers
  import opened ProcessManager
  import PortAllocation

  datatype Refusal = StopAllInProgress | SupersededByStop | InvalidName | NameTaken | NoFreePort | CannotSpawn

  datatype Response =
    | RunOk(name: string, id: string, port: Option<nat>)
    | Stopped(name: string)
    | AllStopped
    | NotFound(target: string)
    | Refused(why: Refusal)
    | StatusReport(infos: map<string, ProcessInfo>)
    | ExitReported(code: Option<Code>)
    | ProxyPort(existing: Option<nat>)

  datatype Phase = Started | Terminated | Killed | Reported(code: Code)

  // A teardown task, or once it has reported, its StopFinished message.
  datatype Teardown = Teardown(name: string, inc: Option<Incarnation>, leaderExit: Option<Code>, phase: Phase)

  datatype Signal = Term | Kill | Reap

  datatype SignalEvent = SignalEvent(inc: Incarnation, signal: Signal)

  datatype Answer = Answer(reply: ReplyId, response: Response)

  // Want: a client, timer or watcher had its intent accepted for these records.
  // Outcome: a teardown of this record ended this way.
  datatype IntentEvent = Want(names: set<string>, wanted: AfterStop) | Outcome(name: string, got: AfterStop)

  datatype BudgetEvent = Reset(name: string) | AutoRespawn(name: string)

  // In-flight teardowns and timers are keyed by the generation they were issued for.
  datatype World = World(
    nextInc: nat,
    exits: map<Incarnation, Code>,
    tasks: map<nat, Teardown>,
    timers: map<nat, string>,
    issued: map<nat, string>,
    nextReply: nat,
    answers: seq<Answer>,
    signals: seq<SignalEvent>,
    intents: seq<IntentEvent>,
    budget: seq<BudgetEvent>,
    autoRestarts: seq<nat>)

  datatype StopAllBatch = StopAllBatch(remaining: set<string>, replies: seq<ReplyId>)

  datatype State = State(
    procs: Table,
    nextId: nat,
    nextGeneration: nat,
    stopAll: Option<StopAllBatch>,
    published: map<string, nat>,
    proxyPort: Option<nat>,
    proxyEnabled: bool,
    nextAutoPort: nat,
    world: World)

  const InitialWorld := World(0, map[], map[], map[], map[], 0, [], [], [], [], [])
  const Initial := State(map[], 1, 0, None, map[], None, false, PortAllocation.AUTO_PORT_MIN, InitialWorld)

  // --- Pieces shared by several commands --------------------------------------

  // A client command arrives with a fresh reply channel.
  function Arrive(s: State): State {
    s.(world := s.world.(nextReply := s.world.nextReply + 1))
  }

  function Reply(s: State, r: ReplyId, resp: Response): State {
    s.(world := s.world.(answers := s.world.answers + [Answer(r, resp)]))
  }

  function Publish(s: State): State {
    s.(published := RunningPorts(s.procs))
  }

  function Refresh(s: State): State {
    s.(procs := ObserveAll(s.procs, s.world.exits))
  }

  // The teardown that takes over a record's incarnation. With nothing to tear down it
  // reports at once.
  function NewTask(p: ManagedProcess): Teardown {
    var exit := p.life.LeaderExit();
    match p.life.Owned()
    case Some(i) => Teardown(p.name, Some(i), exit, Started)
    case None => Teardown(p.name, None, exit, Reported(exit.GetOr(None)))
  }

  function BeginStop(s: State, n: string, next: AfterStop, waiters: seq<Waiter>, count: nat): State
    requires n in s.procs
  {
    var p := s.procs[n];
    s.(procs := s.procs[n := p.(restartCount := count, life := Stopping(p.life.LeaderExit(), next, waiters))],
       world := s.world.(tasks := s.world.tasks[p.generation := NewTask(p)],
                         intents := s.world.intents + [Want({n}, next)]))
  }

  function JoinStop(s: State, n: string, next: AfterStop, waiter: Waiter): State
    requires n in s.procs && s.procs[n].life.Stopping?
  {
    var p := s.procs[n];
    s.(procs := s.procs[n := p.(life := p.life.(next := next, waiters := p.life.waiters + [waiter]))],
       world := s.world.(intents := s.world.intents + [Want({n}, next)]))
  }

  // --- Spawn ------------------------------------------------------------------

  datatype SpawnRequest = SpawnRequest(
    name: Option<string>, port: Option<nat>, policy: Option<RestartPolicy>,
    bindable: set<nat>,  // ports the bind test would accept
    ok: bool)            // whether the operating system starts the command

  function NewRecord(n: string, id: string, port: Option<nat>, policy: Option<RestartPolicy>,
                     generation: nat, inc: Incarnation): ManagedProcess {
    ManagedProcess(n, id, port, policy, 0, generation, Running(inc))
  }

  function CreateRecord(s: State, n: string, id: string, port: Option<nat>, policy: Option<RestartPolicy>): State {
    var g := s.nextGeneration + 1;
    s.(procs := s.procs[n := NewRecord(n, id, port, policy, g, s.world.nextInc)],
       nextGeneration := g,
       world := s.world.(nextInc := s.world.nextInc + 1,
                         issued := s.world.issued[g := n],
                         budget := s.world.budget + [Reset(n)]))
  }

  // The port a spawn gets; None when the automatic search finds none.
  ghost function ResolvePort(s: State, req: SpawnRequest): Option<Option<nat>>
    requires PortAllocation.InRange(s.nextAutoPort)
  {
    if req.port.Some? then Some(req.port)
    else if s.proxyEnabled then
      match PortAllocation.Choice(s.nextAutoPort, HeldPorts(s.procs), req.bindable)
      case Some(p) => Some(Some(p))
      case None => None
    else Some(None)
  }

  ghost function AdvanceCursor(s: State, req: SpawnRequest, port: Option<Option<nat>>): State {
    if req.port.None? && s.proxyEnabled && port.Some? && port.value.Some? && PortAllocation.InRange(port.value.value)
    then s.(nextAutoPort := PortAllocation.NextCursor(port.value.value))
    else s
  }

  ghost function SpawnProcess(s: State, req: SpawnRequest): (State, Response)
    requires PortAllocation.InRange(s.nextAutoPort)
  {
    var id := IdString(s.nextId);
    var n := req.name.GetOr(id);
    var s1 := s.(nextId := s.nextId + 1);
    if UnsafeName(n) || (s1.proxyEnabled && !DnsLabel(n)) then (s1, Refused(InvalidName))
    else
      var port := ResolvePort(s1, req);
      var s2 := AdvanceCursor(s1, req, port);
      if port.None? then (s2, Refused(NoFreePort))
      else if n in s2.procs then (s2, Refused(NameTaken))
      else if !req.ok then (s2, Refused(CannotSpawn))
      else (CreateRecord(s2, n, id, port.value, req.policy), RunOk(n, id, port.value))
  }

  ghost function HandleSpawn(s: State, r: ReplyId, req: SpawnRequest): State
    requires PortAllocation.InRange(s.nextAutoPort)
  {
    if s.stopAll.Some? then Reply(s, r, Refused(StopAllInProgress))
    else
      var (s1, resp) := SpawnProcess(s, req);
      Reply(Publish(s1), r, resp)
  }

  // --- Stop and restart -------------------------------------------------------

  ghost function HandleStop(s: State, r: ReplyId, target: string): State {
    var s1 := Refresh(s);
    match FindKey(s1.procs, target)
    case None => Reply(s1, r, NotFound(target))
    case Some(n) =>
      var p := s1.procs[n];
      if p.life.Stopping? then JoinStop(s1, n, Park, StopWaiter(r))
      else if p.life.NeedsTeardown() then BeginStop(s1, n, Park, [StopWaiter(r)], p.restartCount)
      else Reply(s1, r, Stopped(n))
  }

  ghost function HandleRestart(s: State, r: ReplyId, target: string): State {
    if s.stopAll.Some? then Reply(s, r, Refused(StopAllInProgress))
    else
      var s1 := Refresh(s);
      match FindKey(s1.procs, target)
      case None => Reply(s1, r, NotFound(target))
      case Some(n) =>
        var p := s1.procs[n];
        if p.life.Stopping? then JoinStop(s1, n, Respawn(Manual), RestartWaiter(r))
        else BeginStop(s1, n, Respawn(Manual), [RestartWaiter(r)], p.restartCount)
  }

  // --- Stop-all ---------------------------------------------------------------

  // One record when a stop-all opens.
  function ParkedLife(l: Life): Life {
    if l.Stopping? then l.(next := Park)
    else if l.NeedsTeardown() then Stopping(l.LeaderExit(), Park, [])
    else l
  }

  function ParkAll(procs: Table): Table {
    map n | n in procs :: procs[n].(life := ParkedLife(procs[n].life))
  }

  // The generation belongs to a live record that a stop-all has to tear down.
  predicate TornByStopAll(s: State, g: nat) {
    g in s.world.issued && s.world.issued[g] in s.procs
    && s.procs[s.world.issued[g]].generation == g
    && s.procs[s.world.issued[g]].life.NeedsTeardown()
  }

  function StopAllTasks(s: State): map<nat, Teardown> {
    map g | g in s.world.issued && TornByStopAll(s, g) :: NewTask(s.procs[s.world.issued[g]])
  }

  function Covered(procs: Table): set<string> {
    set n | n in procs && (procs[n].life.Stopping? || procs[n].life.NeedsTeardown())
  }

  function OpenBatch(s: State, r: ReplyId): State {
    s.(procs := ParkAll(s.procs),
       stopAll := Some(StopAllBatch(Covered(s.procs), [r])),
       world := s.world.(tasks := s.world.tasks + StopAllTasks(s),
                         intents := s.world.intents + [Want(Covered(s.procs), Park)]))
  }

  function BatchAnswers(replies: seq<ReplyId>): seq<Answer> {
    seq(|replies|, i requires 0 <= i < |replies| => Answer(replies[i], AllStopped))
  }

  function CloseBatch(s: State): State {
    if s.stopAll.None? then s
    else s.(procs := map[], stopAll := None,
            world := s.world.(answers := s.world.answers + BatchAnswers(s.stopAll.value.replies)))
  }

  function CloseBatchIfDone(s: State): State {
    if s.stopAll.Some? && s.stopAll.value.remaining == {} then CloseBatch(s) else s
  }

  function PushBatchReply(s: State, r: ReplyId): State
    requires s.stopAll.Some?
  {
    s.(stopAll := Some(s.stopAll.value.(replies := s.stopAll.value.replies + [r])))
  }

  function HandleStopAll(s: State, r: ReplyId): State {
    if s.stopAll.Some? then PushBatchReply(s, r)
    else Publish(CloseBatchIfDone(OpenBatch(Refresh(s), r)))
  }

  // --- Queries ----------------------------------------------------------------

  function Infos(procs: Table): map<string, ProcessInfo> {
    map n | n in procs :: Info(procs[n])
  }

  function HandleStatus(s: State, r: ReplyId): State {
    var s1 := Refresh(s);
    var s2 := if Unobserved(s.procs, s.world.exits) then Publish(s1) else s1;
    Reply(s2, r, StatusReport(Infos(s2.procs)))
  }

  ghost function HandleIsExited(s: State, r: ReplyId, target: string): State {
    var s1 := Publish(Refresh(s));
    var found := FindKey(s1.procs, target);
    Reply(s1, r, ExitReported(if found.Some? then ExitReport(s1.procs[found.value].life) else None))
  }

  function HandleEnableProxy(s: State, r: ReplyId, port: nat): State {
    if s.proxyPort.Some? then Reply(s, r, ProxyPort(s.proxyPort))
    else Reply(Publish(s.(proxyPort := Some(port), proxyEnabled := true)), r, ProxyPort(None))
  }

  // --- Automatic restarts -----------------------------------------------------

  // The generation belongs to a live record that gets a timer in this pass.
  predicate GetsTimer(s: State, g: nat) {
    g in s.world.issued && s.world.issued[g] in s.procs
    && s.procs[s.world.issued[g]].generation == g
    && Restartable(s.procs[s.world.issued[g]])
  }

  function NewTimers(s: State): map<nat, string> {
    map g | g in s.world.issued && GetsTimer(s, g) :: s.world.issued[g]
  }

  function ScheduleAll(procs: Table): Table {
    map n | n in procs :: Scheduled(procs[n])
  }

  predicate AnySpent(procs: Table) { exists n :: n in procs && Spent(procs[n]) }

  function MarkAndTime(s: State): State {
    s.(procs := ScheduleAll(s.procs), world := s.world.(timers := s.world.timers + NewTimers(s)))
  }

  function ScheduleRestarts(s: State): State {
    if s.stopAll.Some? then s
    else if AnySpent(s.procs) then Publish(MarkAndTime(s))
    else MarkAndTime(s)
  }

  function HandleTick(s: State): State {
    var s1 := Refresh(s);
    ScheduleRestarts(if Unobserved(s.procs, s.world.exits) then Publish(s1) else s1)
  }

  function TakeTimer(s: State, g: nat): State {
    s.(world := s.world.(timers := s.world.timers - {g}))
  }

  function LogAuto(s: State, g: nat): State {
    s.(world := s.world.(autoRestarts := s.world.autoRestarts + [g]))
  }

  function LogReset(s: State, n: string): State {
    s.(world := s.world.(budget := s.world.budget + [Reset(n)]))
  }

  ghost function HandleAutoRestart(s: State, g: nat): State
    requires g in s.world.timers
  {
    var s1 := TakeTimer(s, g);
    if s.stopAll.Some? then s1
    else
      var found := FindKey(s1.procs, s.world.timers[g]);
      if found.None? then s1
      else
        var n := found.value;
        var p := s1.procs[n];
        if p.generation == g && p.life.Exited? && p.life.why == Natural && p.life.restartTimer
        then BeginStop(LogAuto(s1, g), n, Respawn(Auto), [], p.restartCount + 1)
        else s1
  }

  // A watcher may report for any generation ever issued, at any time.
  ghost function HandleWatchRestart(s: State, g: nat): State
    requires g in s.world.issued
  {
    if s.stopAll.Some? then s
    else
      var found := FindKey(s.procs, s.world.issued[g]);
      if found.None? then s
      else
        var n := found.value;
        var p := s.procs[n];
        if p.generation == g && !p.life.Stopping? && !(p.life.Exited? && p.life.why == ManualStop)
        then BeginStop(LogReset(s, n), n, Respawn(Watch), [], 0)
        else s
  }

  // --- Teardown tasks and their completion ------------------------------------

  function SendSignal(s: State, g: nat, t: Teardown, signal: Signal): State
    requires t.inc.Some?
  {
    s.(world := s.world.(tasks := s.world.tasks[g := t],
                         signals := s.world.signals + [SignalEvent(t.inc.value, signal)]))
  }

  // The exit code of a finished teardown: the observed exit if there was one, else
  // what the final wait says, else -9.
  function TeardownCode(leaderExit: Option<Code>, reaped: Option<Code>): Code {
    match leaderExit
    case Some(c) => c
    case None => match reaped case Some(Some(c)) => Some(c) case _ => Some(-9)
  }

  function TakeTask(s: State, g: nat): State {
    s.(world := s.world.(tasks := s.world.tasks - {g}))
  }

  function WaiterAnswer(w: Waiter, n: string, restartReply: Response): Answer {
    match w
    case StopWaiter(r) => Answer(r, Stopped(n))
    case RestartWaiter(r) => Answer(r, restartReply)
  }

  function WaiterAnswers(ws: seq<Waiter>, n: string, restartReply: Response): seq<Answer> {
    seq(|ws|, i requires 0 <= i < |ws| => WaiterAnswer(ws[i], n, restartReply))
  }

  // The record after its teardown: parked, running again, or failed to start.
  function AfterTeardown(s: State, p: ManagedProcess, next: AfterStop, code: Code, ok: bool): ManagedProcess {
    match next
    case Park => p.(life := Exited(code, ManualStop, None, false))
    case Respawn(reason) =>
      var q := if reason == Manual then p.(restartCount := 0) else p;
      if ok then q.(id := IdString(s.nextId), generation := s.nextGeneration + 1, life := Running(s.world.nextInc))
      else q.(life := Exited(code, SpawnFailed, None, false))
  }

  function RestartReply(q: ManagedProcess, next: AfterStop, ok: bool): Response {
    if next.Park? then Refused(SupersededByStop)
    else if ok then RunOk(q.name, q.id, q.port)
    else Refused(CannotSpawn)
  }

  function RespawnEvents(n: string, next: AfterStop): seq<BudgetEvent> {
    match next
    case Respawn(Manual) => [Reset(n)]
    case Respawn(Auto) => [AutoRespawn(n)]
    case _ => []
  }

  function RemoveFromBatch(batch: Option<StopAllBatch>, n: string): Option<StopAllBatch> {
    match batch
    case Some(b) => Some(b.(remaining := b.remaining - {n}))
    case None => None
  }

  // The StopFinished message of generation `g` reaches its Stopping record `n`.
  function FinishTeardown(s: State, n: string, code: Code, ok: bool): State
    requires n in s.procs && s.procs[n].life.Stopping?
  {
    var p := s.procs[n];
    var next := p.life.next;
    var q := AfterTeardown(s, p, next, code, ok);
    var tried := next.Respawn?;
    var g := if tried then s.nextGeneration + 1 else s.nextGeneration;
    s.(procs := s.procs[n := q],
       nextId := if tried then s.nextId + 1 else s.nextId,
       nextGeneration := g,
       stopAll := RemoveFromBatch(s.stopAll, n),
       world := s.world.(
         nextInc := if tried && ok then s.world.nextInc + 1 else s.world.nextInc,
         issued := if tried && ok then s.world.issued[g := n] else s.world.issued,
         answers := s.world.answers + WaiterAnswers(p.life.waiters, n, RestartReply(q, next, ok)),
         intents := s.world.intents + [Outcome(n, next)],
         budget := s.world.budget + RespawnEvents(n, next)))
  }

  ghost function HandleStopFinished(s: State, g: nat, ok: bool): State
    requires g in s.world.tasks && s.world.tasks[g].phase.Reported?
  {
    var t := s.world.tasks[g];
    var s1 := TakeTask(s, g);
    var found := FindKey(s1.procs, t.name);
    if found.None? || s1.procs[found.value].generation != g || !s1.procs[found.value].life.Stopping? then s1
    else Publish(CloseBatchIfDone(FinishTeardown(s1, found.value, t.phase.code, ok)))
  }

  // --- Steps ------------------------------------------------------------------

  datatype Step =
    | SpawnStep(req: SpawnRequest)
    | StopStep(target: string)
    | StopAllStep
    | RestartStep(target: string)
    | StatusStep
    | IsExitedStep(target: string)
    | EnableProxyStep(port: nat)
    | TickStep
    | AutoRestartStep(generation: nat)
    | WatchRestartStep(generation: nat)
    | StopFinishedStep(generation: nat, ok: bool)
    | LeaderExitsStep(inc: Incarnation, code: Code)
    | TermStep(generation: nat)
    | PollStep(generation: nat)
    | KillStep(generation: nat)
    | ReapStep(generation: nat, capped: bool)

  predicate InPhase(s: State, g: nat, phase: Phase) {
    g in s.world.tasks && s.world.tasks[g].phase == phase && s.world.tasks[g].inc.Some?
  }

  predicate Enabled(s: State, step: Step) {
    match step
    case AutoRestartStep(g) => g in s.world.timers
    case WatchRestartStep(g) => g in s.world.issued
    case StopFinishedStep(g, _) => g in s.world.tasks && s.world.tasks[g].phase.Reported?
    case LeaderExitsStep(i, _) => i < s.world.nextInc && i !in s.world.exits
    case TermStep(g) => InPhase(s, g, Started)
    case PollStep(g) => InPhase(s, g, Terminated) && s.world.tasks[g].leaderExit.None?
    case KillStep(g) => InPhase(s, g, Terminated)
    case ReapStep(g, capped) => InPhase(s, g, Killed) && (!capped ==> s.world.tasks[g].inc.value in s.world.exits)
    case _ => true
  }

  ghost function Apply(s: State, step: Step): State
    requires PortAllocation.InRange(s.nextAutoPort) && Enabled(s, step)
  {
    var r := s.world.nextReply;
    match step
    case SpawnStep(req) => HandleSpawn(Arrive(s), r, req)
    case StopStep(target) => HandleStop(Arrive(s), r, target)
    case StopAllStep => HandleStopAll(Arrive(s), r)
    case RestartStep(target) => HandleRestart(Arrive(s), r, target)
    case StatusStep => HandleStatus(Arrive(s), r)
    case IsExitedStep(target) => HandleIsExited(Arrive(s), r, target)
    case EnableProxyStep(port) => HandleEnableProxy(Arrive(s), r, port)
    case TickStep => HandleTick(s)
    case AutoRestartStep(g) => HandleAutoRestart(s, g)
    case WatchRestartStep(g) => HandleWatchRestart(s, g)
    case StopFinishedStep(g, ok) => HandleStopFinished(s, g, ok)
    case LeaderExitsStep(i, c) => s.(world := s.world.(exits := s.world.exits[i := c]))
    case TermStep(g) =>
      SendSignal(s, g, s.world.tasks[g].(phase := Terminated), Term)
    case PollStep(g) =>
      var t := s.world.tasks[g];
      s.(world := s.world.(tasks := s.world.tasks[g := t.(leaderExit := Peek(s.world.exits, t.inc.value))]))
    case KillStep(g) =>
      SendSignal(s, g, s.world.tasks[g].(phase := Killed), Kill)
    case ReapStep(g, capped) =>
      var t := s.world.tasks[g];
      var reaped := if capped then None else Peek(s.world.exits, t.inc.value);
      SendSignal(s, g, t.(phase := Reported(TeardownCode(t.leaderExit, reaped))), Reap)
  }
}
