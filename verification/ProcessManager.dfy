/** Records of managed processes and the questions asked of them
    (src/daemon/process_manager.rs). */
module ProcessManager {
  import opened Options

  // One spawn of a command: its process group, child handle and capture tasks.
  type Incarnation = nat
  // An exit code as `waitid` reports it; None when a signal ended the leader.
  type Code = Option<int>
  // Identifies the one-shot channel a client command is answered on.
  type ReplyId = nat

  datatype ExitWhy = Natural | ManualStop | Exhausted | SpawnFailed

  datatype RespawnReason = Manual | Auto | Watch

  datatype AfterStop = Park | Respawn(reason: RespawnReason)

  datatype Waiter = StopWaiter(reply: ReplyId) | RestartWaiter(reply: ReplyId)

  datatype Life =
    | Running(inc: Incarnation)
    | Exited(code: Code, why: ExitWhy, zombie: Option<Incarnation>, restartTimer: bool)
    | Stopping(leaderExit: Option<Code>, next: AfterStop, waiters: seq<Waiter>)
  {
    predicate HoldsPort() { Running? || Stopping? }

    predicate LeaderAlive() { Running? || (Stopping? && leaderExit.None?) }

    // The incarnation the record itself owns.
    function Owned(): Option<Incarnation> {
      match this
      case Running(i) => Some(i)
      case Exited(_, _, z, _) => z
      case Stopping(_, _, _) => None
    }

    // The leader's exit, when it happened before a stop began.
    function LeaderExit(): Option<Code> {
      match this
      case Running(_) => None
      case Exited(c, _, _, _) => Some(c)
      case Stopping(e, _, _) => e
    }

    // Stop and stop-all have something to tear down.
    predicate NeedsTeardown() { Running? || (Exited? && zombie.Some?) }
  }

  datatype RestartMode = Always | OnFailure | Never {
    predicate ShouldRestart(code: Code) {
      match this
      case Never => false
      case Always => true
      case OnFailure => code != Some(0)
    }
  }

  datatype RestartPolicy = RestartPolicy(mode: RestartMode, maxRestarts: Option<nat>)

  datatype ManagedProcess = ManagedProcess(
    name: string,
    id: string,
    port: Option<nat>,
    policy: Option<RestartPolicy>,
    restartCount: nat,
    generation: nat,
    life: Life)

  type Table = map<string, ManagedProcess>

  // `peek_exit` over the exits the kernel has recorded.
  function Peek(exits: map<Incarnation, Code>, i: Incarnation): Option<Code> {
    if i in exits then Some(exits[i]) else None
  }

  function ObservedLife(l: Life, exits: map<Incarnation, Code>): Life {
    if l.Running? && l.inc in exits
    then Exited(exits[l.inc], Natural, Some(l.inc), false)
    else l
  }

  function Observed(p: ManagedProcess, exits: map<Incarnation, Code>): ManagedProcess {
    p.(life := ObservedLife(p.life, exits))
  }

  function ObserveAll(procs: Table, exits: map<Incarnation, Code>): Table {
    map n | n in procs :: Observed(procs[n], exits)
  }

  // Some running record's leader has exited without being noticed yet.
  predicate Unobserved(procs: Table, exits: map<Incarnation, Code>) {
    exists n :: n in procs && procs[n].life.Running? && procs[n].life.inc in exits
  }

  function RunningPorts(procs: Table): map<string, nat> {
    map n | n in procs && procs[n].life.LeaderAlive() && procs[n].port.Some? :: procs[n].port.value
  }

  function HeldPorts(procs: Table): set<nat> {
    set n | n in procs && procs[n].life.HoldsPort() && procs[n].port.Some? :: procs[n].port.value
  }

  // The name under which `target` is found: as a name first, then as an id.
  ghost function FindKey(procs: Table, target: string): Option<string> {
    if target in procs then Some(target)
    else if exists n :: n in procs && procs[n].id == target
    then var n :| n in procs && procs[n].id == target; Some(n)
    else None
  }

  predicate OutOfBudget(p: ManagedProcess) {
    p.policy.Some? && p.policy.value.maxRestarts.Some? && p.restartCount >= p.policy.value.maxRestarts.value
  }

  // Exited on its own, with no timer set, under a policy that wants it back.
  predicate WantsRestart(p: ManagedProcess) {
    p.life.Exited? && p.life.why == Natural && !p.life.restartTimer
    && p.policy.Some? && p.policy.value.mode.ShouldRestart(p.life.code)
  }

  predicate Restartable(p: ManagedProcess) { WantsRestart(p) && !OutOfBudget(p) }

  predicate Spent(p: ManagedProcess) { WantsRestart(p) && OutOfBudget(p) }

  // One record after a scheduling pass.
  function Scheduled(p: ManagedProcess): ManagedProcess {
    if Spent(p) then p.(life := p.life.(why := Exhausted))
    else if Restartable(p) then p.(life := p.life.(restartTimer := true))
    else p
  }

  datatype ProcessState = StateRunning | StateExited | StateFailed

  datatype ProcessInfo = ProcessInfo(state: ProcessState, exitCode: Code, port: Option<nat>)

  function Info(p: ManagedProcess): ProcessInfo {
    if p.life.LeaderAlive() then ProcessInfo(StateRunning, None, p.port)
    else if p.life.Exited? && p.life.why in {Exhausted, SpawnFailed} then ProcessInfo(StateFailed, p.life.code, p.port)
    else ProcessInfo(StateExited, p.life.LeaderExit().GetOr(None), p.port)
  }

  // What `is_process_exited` reports for a record.
  function ExitReport(l: Life): Option<Code> {
    l.LeaderExit()
  }
}
