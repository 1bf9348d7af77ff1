/** Waiting for a line of output: subscribe, search the log, then listen
    (src/daemon/server.rs, the Wait request; src/daemon/wait_engine.rs). The writer of the
    target's standard output runs beside the waiter, one effect at a time. */
module Wait {
  import opened Options
  import opened Storage
  import opened LogWriter
  import opened DiskLogReader
  import opened InterleavedReader
  import opened LineScan
  import LogRuns
  import ProcessManager
  import Supervisor
  import SupervisorExamples
  import SupervisorRuns

  datatype OutputLine = OutputLine(process: string, source: LineSource, text: Bytes)

  // --- What the waiter does with what it sees --------------------------------------------------

  // A pattern as given: plain text, or a regular expression that may fail to compile.
  datatype Pattern = Pattern(plain: Filter, useRegex: bool, compiled: Option<Filter>)

  // The history search falls back to plain text when the expression does not compile.
  function HistoryFilter(p: Pattern): Filter {
    if p.useRegex && p.compiled.Some? then p.compiled.value else p.plain
  }

  datatype Response =
    | UnknownProcess
    | WaitMatch(line: Bytes)
    | WaitExited(code: Option<int>)
    | WaitTimeout
    | InvalidRegex
    | ChannelClosed

  // What the waiter's select loop can be woken by.
  datatype WaitEvent =
    | Received(line: OutputLine)
    | Lagged
    | Closed(exited: Option<Option<int>>)
    | ExitPoll(exited: Option<Option<int>>)
    | TimedOut

  function FirstMatch(lines: seq<Bytes>, filter: Filter): Option<Bytes> {
    if lines == [] then None
    else if filter(lines[0]) then Some(lines[0])
    else FirstMatch(lines[1..], filter)
  }

  lemma {:induction false} FirstMatchFinds(lines: seq<Bytes>, filter: Filter)
    ensures FirstMatch(lines, filter).None? <==> forall i :: 0 <= i < |lines| ==> !filter(lines[i])
    ensures FirstMatch(lines, filter).Some? ==> FirstMatch(lines, filter).value in lines && filter(FirstMatch(lines, filter).value)
    ensures forall i :: 0 <= i < |lines| && filter(lines[i]) && (forall j :: 0 <= j < i ==> !filter(lines[j])) ==>
              FirstMatch(lines, filter) == Some(lines[i])
  {
    if lines != [] {
      FirstMatchFinds(lines[1..], filter);
      forall i | 0 < i < |lines| && filter(lines[i]) && (forall j :: 0 <= j < i ==> !filter(lines[j]))
        ensures FirstMatch(lines, filter) == Some(lines[i])
      {
        assert lines[1..][i - 1] == lines[i];
        assert forall j :: 0 <= j < i - 1 ==> lines[1..][j] == lines[j + 1];
      }
    }
  }

  // The answer one event leads to, if it leads to one.
  function Reaction(ev: WaitEvent, target: string, pattern: Option<Pattern>, waitExit: bool): Option<Response> {
    match ev
    case Received(out) =>
      if out.process == target && pattern.Some? && HistoryFilter(pattern.value)(out.text) then Some(WaitMatch(out.text)) else None
    case Lagged => None
    case Closed(exited) => if waitExit && exited.Some? then Some(WaitExited(exited.value)) else Some(ChannelClosed)
    case ExitPoll(exited) => if waitExit && exited.Some? then Some(WaitExited(exited.value)) else None
    case TimedOut => Some(WaitTimeout)
  }

  // The pattern as it is meant: the expression if it is one, and plain text otherwise.
  predicate Accepts(pattern: Option<Pattern>, text: Bytes) {
    match pattern
    case None => false
    case Some(Pattern(plain, false, _)) => plain(text)
    case Some(Pattern(plain, true, compiled)) => compiled.Some? && compiled.value(text)
  }

  // This event leaves a wait listening: it is no line of the target that the pattern accepts, no
  // exit asked for, no end of the channel and no timeout.
  predicate Passes(ev: WaitEvent, target: string, pattern: Option<Pattern>, waitExit: bool) {
    match ev
    case Received(OutputLine(process, _, text)) => process != target || !Accepts(pattern, text)
    case Lagged => true
    case Closed(_) => false
    case ExitPoll(exited) => waitExit ==> exited.None?
    case TimedOut => false
  }

  // This event ends a wait, with this answer.
  predicate Settles(ev: WaitEvent, target: string, pattern: Option<Pattern>, waitExit: bool, answer: Response) {
    match answer
    case WaitMatch(line) => ev.Received? && ev.line.process == target && ev.line.text == line && Accepts(pattern, line)
    case WaitExited(code) => waitExit && (ev == ExitPoll(Some(code)) || ev == Closed(Some(code)))
    case ChannelClosed => ev.Closed? && (waitExit ==> ev.exited.None?)
    case WaitTimeout => ev == TimedOut
    case InvalidRegex => false
    case UnknownProcess => false
  }

  predicate Invalid(pattern: Option<Pattern>) {
    pattern.Some? && pattern.value.useRegex && pattern.value.compiled.None?
  }

  lemma ReactionIs(ev: WaitEvent, target: string, pattern: Option<Pattern>, waitExit: bool)
    requires !Invalid(pattern)
    ensures Reaction(ev, target, pattern, waitExit).None? <==> Passes(ev, target, pattern, waitExit)
    ensures forall answer :: Reaction(ev, target, pattern, waitExit) == Some(answer) <==> Settles(ev, target, pattern, waitExit, answer)
  {
  }

  // None while the events so far settle nothing.
  method WaitFor(events: seq<WaitEvent>, target: string, pattern: Option<Pattern>, waitExit: bool, exitedAtStart: Option<Option<int>>)
    returns (answer: Option<Response>, taken: nat)
    ensures taken <= |events|
    ensures Invalid(pattern) ==> answer == Some(InvalidRegex)
    ensures !Invalid(pattern) && waitExit && exitedAtStart.Some? ==> answer == Some(WaitExited(exitedAtStart.value))
    ensures !Invalid(pattern) && !(waitExit && exitedAtStart.Some?) ==>
              && (forall i :: 0 <= i < taken ==> Reaction(events[i], target, pattern, waitExit).None?)
              && (answer.None? ==> taken == |events|)
              && (answer.Some? ==> taken < |events| && Reaction(events[taken], target, pattern, waitExit) == answer)
    ensures !Invalid(pattern) && !(waitExit && exitedAtStart.Some?) ==>
              && (forall i :: 0 <= i < taken ==> Passes(events[i], target, pattern, waitExit))
              && (answer.Some? <==> taken < |events|)
              && (taken < |events| ==> forall other :: Settles(events[taken], target, pattern, waitExit, other) <==> answer == Some(other))
  {
    answer, taken := None, 0;
    hide Reaction, Passes, Settles;
    forall ev | !Invalid(pattern) { ReactionIs(ev, target, pattern, waitExit); }
    if Invalid(pattern) {
      answer := Some(InvalidRegex);
      return;
    }
    if waitExit && exitedAtStart.Some? {
      answer := Some(WaitExited(exitedAtStart.value));
      return;
    }
    while taken < |events|
      invariant taken <= |events|
      invariant forall i :: 0 <= i < taken ==> Reaction(events[i], target, pattern, waitExit).None?
    {
      match events[taken] {
        case Received(out) =>
          if out.process == target && pattern.Some? && HistoryFilter(pattern.value)(out.text) {
            answer := Some(WaitMatch(out.text));
            return;
          }
        case Lagged =>
        case Closed(exited) =>
          answer := if waitExit && exited.Some? then Some(WaitExited(exited.value)) else Some(ChannelClosed);
          return;
        case ExitPoll(exited) =>
          if waitExit && exited.Some? {
            answer := Some(WaitExited(exited.value));
            return;
          }
        case TimedOut =>
          answer := Some(WaitTimeout);
          return;
      }
      taken := taken + 1;
    }
  }

  // The history search; no file, no match.
  function SearchHistory(content: Option<Bytes>, pattern: Option<Pattern>): Option<Bytes> {
    if content.None? || pattern.None? then None
    else FirstMatch(LinesFrom(content.value, 0), HistoryFilter(pattern.value))
  }

  // What the history search looks for: an expression that compiles, and otherwise the pattern as
  // plain text, even where it was meant as an expression.
  predicate HistoryAccepts(p: Pattern, text: Bytes) {
    match p
    case Pattern(_, true, Some(compiled)) => compiled(text)
    case Pattern(plain, _, _) => plain(text)
  }

  // The search gives the first line it accepts, and nothing exactly when it accepts none.
  lemma SearchIs(content: Bytes, p: Pattern, i: nat)
    ensures var lines, found := LinesFrom(content, 0), SearchHistory(Some(content), Some(p));
            (found.None? <==> forall line :: line in lines ==> !HistoryAccepts(p, line))
            && (i < |lines| && HistoryAccepts(p, lines[i]) && (forall j :: 0 <= j < i ==> !HistoryAccepts(p, lines[j])) ==>
                  found == Some(lines[i]))
  {
    hide LinesFrom;
    var lines, filter := LinesFrom(content, 0), HistoryFilter(p);
    forall text ensures filter(text) == HistoryAccepts(p, text) {}
    FirstMatchFinds(lines, filter);
    if forall line :: line in lines ==> !HistoryAccepts(p, line) {
      forall k | 0 <= k < |lines| ensures !filter(lines[k]) { assert lines[k] in lines; }
    }
  }

  // The standard output logs there are, under the names of the processes that wrote them; the
  // search opens the one named like the target as given.
  function LogNamed(logs: map<string, Bytes>, target: string): Option<Bytes> {
    if target in logs then Some(logs[target]) else None
  }

  // --- The writer beside it ----------------------------------------------------------------------

  // A line on its way: its text is in the log, then its newline, then it is broadcast.
  datatype WriterPhase = Idle | TextWritten(e: Entry) | LineWritten(e: Entry)

  datatype WaiterPhase = NotSubscribed | Listening | HasHistory(content: Bytes)

  // `log` is the target's standard output, `entries` its complete lines, `base` how many there
  // were at the start; `sent` the lines broadcast since, `mark` how many of those before the
  // subscription, `queue` what the subscription has received.
  datatype World = World(
    target: string, log: Bytes, entries: seq<Entry>, base: nat, writer: WriterPhase,
    sent: seq<Bytes>, waiter: WaiterPhase, mark: nat, queue: seq<OutputLine>)

  function Start(target: string, entries: seq<Entry>): World {
    World(target, LogBytes(entries), entries, |entries|, Idle, [], NotSubscribed, 0, [])
  }

  datatype Step =
    | WriteText(e: Entry)
    | WriteNewline
    | Broadcast
    | OtherOutput(out: OutputLine)
    | Subscribe
    | ReadHistory

  predicate Enabled(w: World, step: Step) {
    match step
    case WriteText(e) => w.writer.Idle? && NEWLINE !in e.text
    case WriteNewline => w.writer.TextWritten?
    case Broadcast => w.writer.LineWritten?
    case OtherOutput(out) => !(out.process == w.target && out.source == Stdout)
    case Subscribe => w.waiter.NotSubscribed?
    case ReadHistory => w.waiter.Listening?
  }

  function Deliver(w: World, out: OutputLine): seq<OutputLine> {
    if w.waiter.NotSubscribed? then w.queue else w.queue + [out]
  }

  function Next(w: World, step: Step): World
    requires Enabled(w, step)
  {
    match step
    case WriteText(e) => w.(log := w.log + e.text, writer := TextWritten(e))
    case WriteNewline =>
      w.(log := w.log + [NEWLINE], entries := w.entries + [w.writer.e], writer := LineWritten(w.writer.e))
    case Broadcast =>
      w.(sent := w.sent + [w.writer.e.text], writer := Idle, queue := Deliver(w, OutputLine(w.target, Stdout, w.writer.e.text)))
    case OtherOutput(out) => w.(queue := Deliver(w, out))
    case Subscribe => w.(waiter := Listening, mark := |w.sent|)
    case ReadHistory => w.(waiter := HasHistory(w.log))
  }

  ghost predicate Reaches(w0: World, steps: seq<Step>, w: World) {
    if steps == [] then w == w0
    else
      var before, step := steps[..|steps| - 1], steps[|steps| - 1];
      exists mid :: Reaches(w0, before, mid) && Enabled(mid, step) && w == Next(mid, step)
  }

  // --- What every interleaving keeps ---------------------------------------------------------------

  // The target's own lines among what was received.
  function OwnLines(queue: seq<OutputLine>, target: string): seq<Bytes> {
    if queue == [] then []
    else
      var last := queue[|queue| - 1];
      OwnLines(queue[..|queue| - 1], target) + if last.process == target && last.source == Stdout then [last.text] else []
  }

  function Partial(w: World): Bytes { if w.writer.TextWritten? then w.writer.e.text else [] }

  ghost predicate LogInv(w: World) {
    Clean(w.entries) && w.log == LogBytes(w.entries) + Partial(w)
    && (w.writer.TextWritten? ==> NEWLINE !in w.writer.e.text)
  }

  // Everything complete has been broadcast, but for a line between its newline and that.
  ghost predicate SentInv(w: World) {
    w.base + |w.sent| + (if w.writer.LineWritten? then 1 else 0) == |w.entries|
    && (forall i :: 0 <= i < |w.sent| ==> w.sent[i] == w.entries[w.base + i].text)
    && (w.writer.LineWritten? ==> w.entries[|w.entries| - 1] == w.writer.e)
  }

  ghost predicate QueueInv(w: World) {
    w.mark <= |w.sent|
    && (w.waiter.NotSubscribed? ==> w.queue == [])
    && (!w.waiter.NotSubscribed? ==> OwnLines(w.queue, w.target) == w.sent[w.mark..])
  }

  // The history holds every line broadcast before the subscription.
  ghost predicate HistoryInv(w: World) {
    w.waiter.HasHistory? ==> w.base + w.mark <= |w.entries| && LogBytes(w.entries[..w.base + w.mark]) <= w.waiter.content
  }

  ghost predicate Inv(w: World) { LogInv(w) && SentInv(w) && QueueInv(w) && HistoryInv(w) }

  lemma OwnSnoc(queue: seq<OutputLine>, out: OutputLine, target: string)
    ensures OwnLines(queue + [out], target)
         == OwnLines(queue, target) + if out.process == target && out.source == Stdout then [out.text] else []
  {
    assert (queue + [out])[..|queue|] == queue;
  }

  lemma NothingOwn(target: string)
    ensures OwnLines([], target) == []
  {
  }

  lemma LogStep(w: World, step: Step)
    requires LogInv(w) && Enabled(w, step)
    ensures LogInv(Next(w, step))
  {
    if step == WriteNewline {
      LogSnoc(w.entries, w.writer.e);
      assert LogBytes(w.entries) + w.writer.e.text + [NEWLINE] == LogBytes(w.entries) + LineBytes(w.writer.e) + [];
    }
  }

  lemma QueueStep(w: World, step: Step)
    requires SentInv(w) && QueueInv(w) && Enabled(w, step)
    ensures SentInv(Next(w, step)) && QueueInv(Next(w, step))
  {
    hide OwnLines;
    match step {
      case Broadcast => BroadcastStep(w);
      case OtherOutput(out) => OwnSnoc(w.queue, out, w.target);
      case WriteText(e) =>
      case WriteNewline => NewlineStep(w);
      case Subscribe =>
        NothingOwn(w.target);
        assert w.sent[|w.sent|..] == [];
      case ReadHistory =>
    }
  }

  lemma BroadcastStep(w: World)
    requires SentInv(w) && QueueInv(w) && w.writer.LineWritten?
    ensures SentInv(Next(w, Broadcast)) && QueueInv(Next(w, Broadcast))
  {
    hide OwnLines;
    var text := w.writer.e.text;
    OwnSnoc(w.queue, OutputLine(w.target, Stdout, text), w.target);
    assert (w.sent + [text])[w.mark..] == w.sent[w.mark..] + [text];
  }

  lemma NewlineStep(w: World)
    requires SentInv(w) && QueueInv(w) && w.writer.TextWritten?
    ensures SentInv(Next(w, WriteNewline)) && QueueInv(Next(w, WriteNewline))
  {
    hide OwnLines;
    var longer := w.entries + [w.writer.e];
    assert forall i :: 0 <= i < |w.entries| ==> longer[i] == w.entries[i];
  }

  lemma HistoryStep(w: World, step: Step)
    requires Inv(w) && Enabled(w, step)
    ensures HistoryInv(Next(w, step))
  {
    hide LogBytes, OwnLines;
    var n := w.base + w.mark;
    if step == ReadHistory {
      LogPrefix(w.entries, n);
    } else if step == WriteNewline && w.waiter.HasHistory? {
      assert (w.entries + [w.writer.e])[..n] == w.entries[..n];
    }
  }

  lemma {:induction false} InvReached(target: string, entries: seq<Entry>, steps: seq<Step>, w: World)
    requires Clean(entries) && Reaches(Start(target, entries), steps, w)
    ensures Inv(w) && w.target == target && w.base == |entries|
  {
    hide LogInv, QueueInv, HistoryInv, SentInv;
    if steps == [] {
      StartInv(target, entries);
    } else {
      var before, step := steps[..|steps| - 1], steps[|steps| - 1];
      var mid :| Reaches(Start(target, entries), before, mid) && Enabled(mid, step) && w == Next(mid, step);
      InvReached(target, entries, before, mid);
      LogStep(mid, step);
      QueueStep(mid, step);
      HistoryStep(mid, step);
    }
  }

  lemma StartInv(target: string, entries: seq<Entry>)
    requires Clean(entries)
    ensures Inv(Start(target, entries))
  {
  }

  // --- No line is lost -------------------------------------------------------------------------------

  // Once the history is read, every line of the target's standard output that was in the log at
  // the start or has been broadcast since is in the history or has been received. The history
  // shows a line without a trailing carriage return.
  lemma NoLineLost(target: string, entries: seq<Entry>, steps: seq<Step>, w: World, i: nat)
    requires Clean(entries) && Reaches(Start(target, entries), steps, w) && w.waiter.HasHistory?
    requires i < |entries| + |w.sent|
    ensures i < |w.entries|
    ensures var text := w.entries[i].text;
            WithoutLast(text, CARRIAGE_RETURN) in LinesFrom(w.waiter.content, 0) || text in OwnLines(w.queue, target)
  {
    hide LogBytes, LinesFrom, OwnLines, Stripped, DiskLogReader.Start;
    InvReached(target, entries, steps, w);
    var n := w.base + w.mark;
    if i < n {
      var early := w.entries[..n];
      assert Clean(early);
      WholeLog(early);
      ScanGivesStripped(w.waiter.content, early, 0);
      assert Stripped(early)[0..][i] == WithoutLast(w.entries[i].text, CARRIAGE_RETURN);
    } else {
      assert w.sent[w.mark..][i - n] == w.entries[i].text;
    }
  }

  lemma {:induction false} OwnWasReceived(queue: seq<OutputLine>, target: string, text: Bytes)
    requires text in OwnLines(queue, target)
    ensures exists out :: out in queue && out.process == target && out.text == text
  {
    var last, front := queue[|queue| - 1], queue[..|queue| - 1];
    if text in OwnLines(front, target) {
      OwnWasReceived(front, target, text);
    } else {
      assert last in queue && last.process == target && last.text == text;
    }
  }

  // If neither the history nor anything received so far matched, no such line matches at all,
  // save one that owes its match to a trailing carriage return the history does not show.
  lemma NoMatchLost(target: string, entries: seq<Entry>, steps: seq<Step>, w: World, p: Pattern, waitExit: bool)
    requires Clean(entries) && Reaches(Start(target, entries), steps, w) && w.waiter.HasHistory?
    requires SearchHistory(Some(w.waiter.content), Some(p)).None?
    requires forall out :: out in w.queue ==> Reaction(Received(out), target, Some(p), waitExit).None?
    ensures |entries| + |w.sent| <= |w.entries|
    ensures forall i ::
              0 <= i < |entries| + |w.sent| && HistoryFilter(p)(w.entries[i].text) ==>
                EndsInReturn(w.entries[i].text) && !HistoryFilter(p)(WithoutLast(w.entries[i].text, CARRIAGE_RETURN))
  {
    hide LinesFrom, OwnLines, Reaches, DiskLogReader.Start, LogBytes;
    InvReached(target, entries, steps, w);
    var shown, filter := LinesFrom(w.waiter.content, 0), HistoryFilter(p);
    FirstMatchFinds(shown, filter);
    forall i | 0 <= i < |entries| + |w.sent| && filter(w.entries[i].text)
      ensures EndsInReturn(w.entries[i].text) && !filter(WithoutLast(w.entries[i].text, CARRIAGE_RETURN))
    {
      var text := w.entries[i].text;
      NoLineLost(target, entries, steps, w, i);
      if text in OwnLines(w.queue, target) {
        OwnWasReceived(w.queue, target, text);
      }
    }
  }

  // --- The whole request ------------------------------------------------------------------------------

  function ReceivedOf(events: seq<WaitEvent>): seq<OutputLine> {
    if events == [] then []
    else
      var last := events[|events| - 1];
      ReceivedOf(events[..|events| - 1]) + if last.Received? then [last.line] else []
  }

  lemma {:induction false} ReceivedIsEvent(events: seq<WaitEvent>, out: OutputLine)
    ensures out in ReceivedOf(events) <==> Received(out) in events
  {
    if events != [] {
      var front, last := events[..|events| - 1], events[|events| - 1];
      assert events == front + [last];
      ReceivedIsEvent(front, out);
    }
  }

  predicate IsMatch(answer: Option<Response>) { answer.Some? && answer.value.WaitMatch? }

  // Nothing settled the wait up to `taken`, and what came after is no match: then no line that
  // was there or arrived matches.
  ghost predicate NothingMatched(w: World, n: nat, p: Pattern) {
    n + |w.sent| <= |w.entries|
    && forall i ::
         0 <= i < n + |w.sent| && HistoryFilter(p)(w.entries[i].text) ==>
           EndsInReturn(w.entries[i].text) && !HistoryFilter(p)(WithoutLast(w.entries[i].text, CARRIAGE_RETURN))
  }

  // The run of writer and waiter that this request is part of: its history is what was read,
  // its queue the lines taken so far.
  ghost predicate PartOf(target: string, entries: seq<Entry>, steps: seq<Step>, w: World,
                         content: Option<Bytes>, taken: seq<WaitEvent>) {
    Clean(entries) && Reaches(Start(target, entries), steps, w)
    && w.waiter.HasHistory? && content == Some(w.waiter.content) && ReceivedOf(taken) == w.queue
  }

  // Subscribed already, the request searches the history and then listens. As long as it has
  // not answered with a match, none of the lines it can answer for matches. When no line comes
  // under the name given, the history alone decides.
  method WaitRequest(known: bool, target: string, pattern: Option<Pattern>, waitExit: bool, logs: map<string, Bytes>,
                     exitedAtStart: Option<Option<int>>, events: seq<WaitEvent>,
                     ghost entries: seq<Entry>, ghost steps: seq<Step>, ghost w: World)
    returns (answer: Option<Response>, taken: nat)
    ensures taken <= |events|
    ensures !known ==> answer == Some(UnknownProcess)
    ensures var found := SearchHistory(LogNamed(logs, target), pattern);
            known && found.Some? ==> answer == Some(WaitMatch(found.value))
    ensures known && pattern.Some? && !Invalid(pattern) && !(waitExit && exitedAtStart.Some?)
            && !IsMatch(answer) && PartOf(target, entries, steps, w, LogNamed(logs, target), events[..taken]) ==>
              NothingMatched(w, |entries|, pattern.value)
    ensures known && (forall out :: out in ReceivedOf(events) ==> out.process != target) ==>
              (IsMatch(answer) <==> SearchHistory(LogNamed(logs, target), pattern).Some?)
  {
    taken := 0;
    if !known {
      return Some(UnknownProcess), 0;
    }
    var content := LogNamed(logs, target);
    var found := SearchHistory(content, pattern);
    if found.Some? {
      return Some(WaitMatch(found.value)), 0;
    }
    answer, taken := WaitFor(events, target, pattern, waitExit, exitedAtStart);
    if pattern.Some? && PartOf(target, entries, steps, w, content, events[..taken])
       && forall i :: 0 <= i < taken ==> Reaction(events[i], target, pattern, waitExit).None? {
      forall out | out in w.queue ensures Reaction(Received(out), target, pattern, waitExit).None? {
        ReceivedIsEvent(events[..taken], out);
      }
      NoMatchLost(target, entries, steps, w, pattern.value, waitExit);
    }
    if taken < |events| && events[taken].Received? {
      ReceivedIsEvent(events, events[taken].line);
    }
  }

  // --- A target given as an id --------------------------------------------------------------------------

  // The daemon accepts the id of a process, but log and output go by names: given an id that is
  // no name, the wait hears no line of any process there is and reads none of their logs. Only
  // a log that an earlier process left under that name can match.
  lemma IdHearsNoProcess(procs: ProcessManager.Table, target: string, n: string, pattern: Option<Pattern>, waitExit: bool,
                         logs: map<string, Bytes>, others: map<string, Bytes>, out: OutputLine)
    requires n in procs && procs[n].id == target && target !in procs
    requires forall m :: m !in procs ==> (m in logs <==> m in others) && (m in logs && m in others ==> logs[m] == others[m])
    ensures ProcessManager.FindKey(procs, target).Some?
    ensures out.process in procs ==> Reaction(Received(out), target, pattern, waitExit).None?
    ensures SearchHistory(LogNamed(logs, target), pattern) == SearchHistory(LogNamed(others, target), pattern)
  {
  }

  const READY: Bytes := [114, 101, 97, 100, 121]

  // Such a log there may be: a process named "p2" says it is ready, a stop-all ends it, and the
  // next process has the id "p2". Whoever waits for that id to be ready is told so at once,
  // whatever the new process does.
  lemma OldLogAnswers(pattern: Pattern, lim: LogRuns.Limits)
    returns (before: Supervisor.State, steps: seq<Supervisor.Step>, after: Supervisor.State, log: Bytes)
    requires HistoryFilter(pattern)(READY)
    ensures var p2, web := SupervisorExamples.OldName, SupervisorExamples.Web;
            SupervisorRuns.Reachable(before) && p2 in before.procs && SupervisorRuns.Path(before, steps, after)
            && p2 !in after.procs && ProcessManager.FindKey(after.procs, p2) == Some(web)
            && log == LogBytes(LogRuns.Run([LogRuns.LineWritten(READY, 0), LogRuns.CaptureEnded], lim).cur.entries)
            && forall logs :: LogNamed(logs, p2) == Some(log) ==> SearchHistory(LogNamed(logs, p2), Some(pattern)) == Some(READY)
  {
    hide ProcessManager.FindKey, SupervisorRuns.Path, SupervisorRuns.Reachable, LogRuns.Run, LogBytes, LinesFrom;
    before, steps, after := SupervisorExamples.IdTakesOldName();
    log := LogBytes([Entry(READY, 0)]);
    LogRuns.OneLineRun(READY, lim);
    OneLineScan(READY);
  }

  // A log of one line is searched as that line.
  lemma OneLineScan(text: Bytes)
    requires NEWLINE !in text && !EndsInReturn(text)
    ensures LinesFrom(LogBytes([Entry(text, 0)]), 0) == [text]
  {
    hide LinesFrom, LogBytes, DiskLogReader.Start;
    var entries := [Entry(text, 0)];
    WholeLog(entries);
    ScanGivesStripped(LogBytes(entries), entries, 0);
    NothingAfterEnd(LogBytes(entries));
    assert Stripped(entries)[0..] == [text];
  }
}
