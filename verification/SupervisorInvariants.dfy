/** What holds in every reachable state of the supervisor. */
module SupervisorInvariants {
  import opened Options
  import opened Identifiers
  import opened ProcessManager
  import opened Supervisor
  import PortAllocation

  // --- Records, generations and ids -------------------------------------------

  // A zombie is held exactly while an own exit has not been dealt with; only such
  // an exit carries a timer.
  predicate LifeOk(l: Life) {
    l.Exited? ==> (l.zombie.Some? <==> l.why in {Natural, Exhausted}) && (l.restartTimer ==> l.why == Natural)
  }

  ghost predicate RecordOk(s: State, n: string)
    requires n in s.procs
  {
    var p := s.procs[n];
    p.name == n && p.generation in s.world.issued && s.world.issued[p.generation] == n
    && IdIssued(p.id, s.nextId) && LifeOk(p.life)
  }

  ghost predicate CoreInv(s: State) {
    PortAllocation.InRange(s.nextAutoPort)
    && (forall n :: n in s.procs ==> RecordOk(s, n))
    && (forall m, n :: m in s.procs && n in s.procs && s.procs[m].id == s.procs[n].id ==> m == n)
    && (forall g :: g in s.world.issued ==> 1 <= g <= s.nextGeneration)
  }

  // --- Teardowns in flight ----------------------------------------------------

  ghost predicate TaskOk(s: State, g: nat)
    requires g in s.world.tasks
  {
    var t := s.world.tasks[g];
    t.name in s.procs && s.procs[t.name].life.Stopping? && s.procs[t.name].generation == g
    && (t.inc.None? ==> t.phase.Reported?)
  }

  // Stopping records and in-flight teardowns correspond one to one.
  ghost predicate TasksInv(s: State) {
    (forall g :: g in s.world.tasks ==> TaskOk(s, g))
    && (forall n :: n in s.procs && s.procs[n].life.Stopping? ==>
          s.procs[n].generation in s.world.tasks && s.world.tasks[s.procs[n].generation].name == n)
  }

  // --- Restart timers ---------------------------------------------------------

  predicate AwaitsTimer(l: Life) { l.Exited? && l.restartTimer }

  // Running, or exited on its own with no timer set yet.
  predicate TimerNotYetSet(l: Life) { l.Running? || (l.Exited? && l.why == Natural && !l.restartTimer) }

  // Running, or exited on its own: not yet handed to any restart or stop.
  predicate FirstLife(l: Life) { l.Running? || (l.Exited? && l.why == Natural) }

  ghost predicate TimersInv(s: State) {
    (forall g :: g in s.world.timers ==> g in s.world.issued && s.world.issued[g] == s.world.timers[g])
    && (forall n :: n in s.procs && AwaitsTimer(s.procs[n].life) ==> s.procs[n].generation in s.world.timers)
    && (forall n :: n in s.procs && TimerNotYetSet(s.procs[n].life) ==> s.procs[n].generation !in s.world.timers)
  }

  // No generation is restarted automatically twice.
  ghost predicate AutoInv(s: State) {
    (forall j, k :: 0 <= j < k < |s.world.autoRestarts| ==> s.world.autoRestarts[j] != s.world.autoRestarts[k])
    && (forall g :: g in s.world.autoRestarts ==> g in s.world.issued)
    && (forall n :: n in s.procs && FirstLife(s.procs[n].life) ==> s.procs[n].generation !in s.world.autoRestarts)
  }

  // --- Incarnations -----------------------------------------------------------

  datatype Place = InRecord(name: string) | InTask(generation: nat) | Gone

  // The signals an incarnation's group has received, oldest first.
  function History(signals: seq<SignalEvent>, i: Incarnation): seq<Signal> {
    if signals == [] then []
    else
      var last := signals[|signals| - 1];
      History(signals[..|signals| - 1], i) + if last.inc == i then [last.signal] else []
  }

  function PhaseHistory(phase: Phase): seq<Signal> {
    match phase
    case Started => []
    case Terminated => [Term]
    case Killed => [Term, Kill]
    case Reported(_) => [Term, Kill, Reap]
  }

  ghost predicate At(s: State, i: Incarnation, place: Place) {
    match place
    case InRecord(n) => n in s.procs && s.procs[n].life.Owned() == Some(i)
    case InTask(g) => g in s.world.tasks && s.world.tasks[g].inc == Some(i) && !s.world.tasks[g].phase.Reported?
    case Gone => i < s.world.nextInc && History(s.world.signals, i) == [Term, Kill, Reap]
  }

  ghost predicate SomePlace(s: State, i: Incarnation) { exists place :: At(s, i, place) }

  function ExpectedHistory(s: State, place: Place): seq<Signal> {
    match place
    case InRecord(_) => []
    case InTask(g) => if g in s.world.tasks then PhaseHistory(s.world.tasks[g].phase) else []
    case Gone => [Term, Kill, Reap]
  }

  // Every incarnation ever spawned is in exactly one place, and its group has received
  // exactly the signals that place implies.
  ghost predicate IncInv(s: State) {
    (forall i: Incarnation :: i < s.world.nextInc ==> SomePlace(s, i))
    && (forall i: Incarnation, a, b :: At(s, i, a) && At(s, i, b) ==> a == b)
    && (forall i: Incarnation, a :: At(s, i, a) ==> i < s.world.nextInc && History(s.world.signals, i) == ExpectedHistory(s, a))
    && (forall i: Incarnation :: i >= s.world.nextInc ==> History(s.world.signals, i) == [])
  }

  // --- Replies ----------------------------------------------------------------

  datatype ReplyPlace = Waiting(name: string, index: nat) | InBatch(index: nat) | Answered(index: nat)

  ghost predicate ReplyAt(s: State, r: ReplyId, place: ReplyPlace) {
    match place
    case Waiting(n, k) =>
      n in s.procs && s.procs[n].life.Stopping? && k < |s.procs[n].life.waiters| && s.procs[n].life.waiters[k].reply == r
    case InBatch(k) => s.stopAll.Some? && k < |s.stopAll.value.replies| && s.stopAll.value.replies[k] == r
    case Answered(k) => k < |s.world.answers| && s.world.answers[k].reply == r
  }

  ghost predicate SomeReplyPlace(s: State, r: ReplyId) { exists place :: ReplyAt(s, r, place) }

  // Every command's reply channel is in exactly one place: a waiters list, the batch or
  // the answers given. `loose` is the one being handled right now.
  ghost predicate RepliesInv(s: State, loose: Option<ReplyId>) {
    (forall r: ReplyId :: r < s.world.nextReply && loose != Some(r) ==> SomeReplyPlace(s, r))
    && (forall r: ReplyId, a, b :: ReplyAt(s, r, a) && ReplyAt(s, r, b) ==> a == b)
    && (forall r: ReplyId, a :: ReplyAt(s, r, a) ==> r < s.world.nextReply && loose != Some(r))
    && (loose.Some? ==> loose.value < s.world.nextReply)
  }

  // --- Stop-all ---------------------------------------------------------------

  function StoppingNames(procs: Table): set<string> {
    set n | n in procs && procs[n].life.Stopping?
  }

  // While a batch is open everything is parked or being parked for it.
  ghost predicate BatchInv(s: State) {
    s.stopAll.Some? ==>
      s.stopAll.value.remaining == StoppingNames(s.procs)
      && forall n :: n in s.procs ==>
           match s.procs[n].life
           case Running(_) => false
           case Exited(_, _, zombie, _) => zombie.None?
           case Stopping(_, next, _) => next == Park
  }

  // --- Restart budget ---------------------------------------------------------

  function CountAfter(e: BudgetEvent, n: string, before: nat): nat {
    match e
    case Reset(m) => if m == n then 0 else before
    case AutoRespawn(m) => if m == n then before + 1 else before
  }

  // Automatic respawns of `n` since its last reset.
  function AutoSince(log: seq<BudgetEvent>, n: string): nat {
    if log == [] then 0 else CountAfter(log[|log| - 1], n, AutoSince(log[..|log| - 1], n))
  }

  function AutoPending(l: Life): nat { if l.Stopping? && l.next == Respawn(Auto) then 1 else 0 }

  function Limit(p: ManagedProcess): Option<nat> {
    if p.policy.Some? then p.policy.value.maxRestarts else None
  }

  ghost predicate BudgetOk(s: State, n: string)
    requires n in s.procs
  {
    var p := s.procs[n];
    AutoSince(s.world.budget, n) + AutoPending(p.life) <= p.restartCount
    && (Limit(p).Some? ==> p.restartCount <= Limit(p).value)
    && (AwaitsTimer(p.life) && Limit(p).Some? ==> p.restartCount < Limit(p).value)
    && (p.life.Exited? && p.life.why == Exhausted ==> Limit(p) == Some(p.restartCount))
  }

  ghost predicate BudgetInv(s: State) {
    forall n :: n in s.procs ==> BudgetOk(s, n)
  }

  // --- Intents ----------------------------------------------------------------

  function WantAfter(e: IntentEvent, n: string, before: Option<AfterStop>): Option<AfterStop> {
    match e
    case Want(names, a) => if n in names then Some(a) else before
    case Outcome(m, _) => if m == n then None else before
  }

  // The last intent accepted for `n` since its last teardown ended.
  function LastWant(log: seq<IntentEvent>, n: string): Option<AfterStop> {
    if log == [] then None else WantAfter(log[|log| - 1], n, LastWant(log[..|log| - 1], n))
  }

  // Every teardown ended the way the last accepted intent asked.
  ghost predicate OutcomesOk(log: seq<IntentEvent>) {
    forall k :: 0 <= k < |log| && log[k].Outcome? ==> LastWant(log[..k], log[k].name) == Some(log[k].got)
  }

  ghost predicate IntentsInv(s: State) {
    OutcomesOk(s.world.intents)
    && forall n :: n in s.procs && s.procs[n].life.Stopping? ==> LastWant(s.world.intents, n) == Some(s.procs[n].life.next)
  }

  // --- Everything -------------------------------------------------------------

  ghost predicate TableInv(s: State) {
    CoreInv(s) && TasksInv(s) && TimersInv(s) && AutoInv(s) && BatchInv(s) && BudgetInv(s)
  }

  ghost predicate Inv(s: State, loose: Option<ReplyId>) {
    TableInv(s) && IncInv(s) && RepliesInv(s, loose) && IntentsInv(s)
  }
}
