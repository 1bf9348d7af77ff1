# Verified model of agent-procs

agent-procs runs long-lived commands for coding agents. A daemon supervises them: one actor owns a
table of records, handles commands one at a time, and hands stops, restart timers and file watchers
to tasks that report back by message. Each command's output goes to rotated log files with a sidecar
line index; readers seek through the index, merge both streams by sequence number, search them, or
wait for a line. A project file lists processes with dependencies and is started in groups.

The model follows that structure.

- **Supervisor.** `Supervisor.dfy` is the state machine: the actor's table and the world around it
  (leaders, teardown tasks, timers in flight, logs of signals, answers, intents and restarts), with one
  step for each client command, the periodic tick, each message and each teardown effect.
  `SupervisorInvariants.dfy` says what every reachable state satisfies; `SupervisorSteps.dfy`,
  `SupervisorTeardowns.dfy`, `SupervisorCommands.dfy` and `SupervisorRuns.dfy` prove it step by step.
  The promises are in `SupervisorTheorems.dfy`, `SupervisorMoves.dfy` and `SupervisorStopAll.dfy`;
  `SupervisorOutcomes.dfy` says what each step leaves behind, record by record;
  `SupervisorExamples.dfy` has reachable states where a plausible promise ends. `Actor.dfy` is the actor
  as a class whose methods update its fields as the code does; each is proved to take exactly its step.
- **Logs.** `Storage.dfy` is a directory of byte files. `LogIndex.dfy`, `LogWriter.dfy` and
  `DiskLogReader.dfy` follow the files of the same name, on bytes; `LogRuns.dfy` is about whole
  histories, `InterleavedReader.dfy`, `InterleavedRuns.dfy` and `PairRuns.dfy` about both streams together,
  `LineScan.dfy` about searching, `ReadDuringWrite.dfy` about what a reader sees at each effect of a
  write, `LogGrowth.dfy` about how that changes from write to write.
- **The rest.** `Scheduler.dfy` (startup order), `PortAllocator.dfy` (port search), `App.dfy` (the output
  pane), `Wait.dfy` (waiting for a line), `Identifiers.dfy` and `ProcessManager.dfy` (ids and records).

Where the code falls short of what it promises, the model keeps the code, shows an input, and proves
when the promise holds:

- A Stop or Restart that notices the exit of a routed process leaves the published routes stale
  (`SupervisorExamples.RouteGoesStale`); no other step does (`SupervisorRuns.PublishedMapExact`).
- A process stopped after a failed respawn is started again by a late file-change event
  (`SupervisorExamples.StoppedYetRevived`); one parked by hand is not (`SupervisorMoves.StaleWatchEvent`).
- A manual restart truncates the log it finds (`LogRuns.ManualRestartCanLose`), which leaves a gap unless
  there was nothing in it or nothing before it (`LogRuns.ManualRestartKeepsSuffixIff`).
- Sequence numbers start again with each incarnation, so the merged view need not keep a stream's own
  order across restarts (`LogGrowth.RestartBreaksOrder`, `InterleavedRuns.StreamOrderKeptIff`).
- A late index flush inserts lines in the middle of the merged view (`LogGrowth.LateFlushInsertsAbove`,
  `LogGrowth.MergeGrowsIff`), after which the filter index may be wrong (`App.LateFlushMisleadsFilter`,
  `App.UpdateExactIff`).
- The key for the top of the log stores an offset that shows an empty pane, whatever the log
  (`App.TopShowsNothing`, `App.WindowFullIff`).
- Between the renames of a log and its index in a rotation, a reader loses the trailing carriage returns
  of the moved lines, and only then (`ReadDuringWrite.BetweenRenamesIff`, `ReadDuringWrite.WriteAlwaysReadable`).
- While the index lags, lines are missing between the log and the ring in memory
  (`App.LaggingPaneLosesLines`, `App.LaggingPaneIsHistoryIff`).
- Lines that arrive between the two looks of building or updating the filter index are lost or counted
  twice if they match (`App.RacesHappen`, `App.BuildRaceExactIff`, `App.UpdateRaceExactIff`).
- A wait given the id of a process, when that is no name, is accepted but hears no line of that process
  (`Wait.IdHearsNoProcess`). With no output under that name it answers with a match exactly when a log
  left under it has one (`Wait.WaitRequest`), as that of an earlier process may (`Wait.OldLogAnswers`).

## Model

| member | source | states |
|---|---|---|
| Identifiers.DecimalInjective | src/session.rs:37-41 | two counter values never print alike |
| Identifiers.IdsDistinct | src/session.rs:24-41 | ids handed out by the counter never repeat |
| Identifiers.DecimalReads | src/session.rs:37-41 | the number in an id is written in base ten without leading zeros |
| PortAllocation.VisitsEachOnce | src/daemon/port_allocator.rs:34-59 | walking up from the cursor visits each of the 1000 ports exactly once, at its cyclic distance |
| PortAllocation.FirstFreeUnique | src/daemon/port_allocator.rs:34-59 | there is at most one first free port in cyclic order |
| PortAllocation.SomeFirstFree | src/daemon/port_allocator.rs:34-59 | where some port is free there is a first one in cyclic order |
| PortAllocation.PortAllocator.AutoAssignPort | src/daemon/port_allocator.rs:34-59 | returns the first port from the cursor that is unassigned and bindable, none exactly when all are taken or unbindable; the cursor moves just past it and stays in 4000..4999 |
| SupervisorCommands.LookupUnambiguous | src/daemon/process_manager.rs:690-702 | looking a record up by id finds that record whatever the order of the map |
| SupervisorCommands.AutoRestartActs | src/daemon/actor.rs:478-496 | a delivered timer starts its respawn exactly when a record still waits for it, even if a stop-all came and went; otherwise it is dropped and nothing else changes |
| SupervisorCommands.StopFinishedFindsItsRecord | src/daemon/actor.rs:564-582 | a teardown that reports finds its record, under its generation and still Stopping: the early returns and the unreachable branch are dead |
| SupervisorCommands.StepKeeps | src/daemon/actor.rs:351-523 | every enabled step of the actor or the world around it keeps the whole invariant |
| SupervisorRuns.ReachableSound | src/daemon/actor.rs:288-523 | every state reached by any run from an empty session satisfies the invariant, publishes every live route and has no finished stop-all left open |
| SupervisorRuns.PublishedMapExact | src/daemon/actor.rs:401-405 | from an exact published map, a step leaves it exact if and only if it is not a Stop or Restart that notices the exit of a routed process |
| SupervisorTheorems.IncarnationsConserved | src/daemon/process_manager.rs:105-160 | each incarnation ever spawned is held by one record, owned by one teardown, or gone: exactly one place, never dropped |
| SupervisorTheorems.NoSignalAfterReap | src/daemon/process_manager.rs:215-241 | in every run, once a group's leader is reaped no signal goes to that group |
| SupervisorTheorems.RepliesConserved | src/daemon/actor.rs:404-447 | every command ever received is answered or waits in exactly one waiters list or the stop-all batch |
| SupervisorTheorems.AnsweredAtMostOnce | src/daemon/actor.rs:584-596 | no command is answered twice |
| SupervisorTheorems.TeardownsMatchRecords | src/daemon/actor.rs:527-562 | Stopping records and teardowns in flight correspond one to one by name and generation; generations and ids are distinct across records |
| SupervisorTheorems.TimersMatchRecords | src/daemon/actor.rs:330-348 | a record awaiting its restart has a timer in flight for its generation; a running one or one not yet classified has none |
| SupervisorTheorems.RestartedAutomaticallyOnce | src/daemon/actor.rs:478-496 | no generation is restarted automatically twice |
| SupervisorTheorems.BudgetRespected | src/daemon/process_manager.rs:706-744 | automatic respawns since the last reset never outnumber the restart count, which never passes max_restarts; a record given up on has used it all |
| SupervisorTheorems.LastIntentWins | src/daemon/actor.rs:411-447 | however a teardown ended, parked or respawned, is what the last Stop, Restart, stop-all, timer or watch event accepted for that record asked |
| SupervisorTheorems.CursorStaysInRange | src/daemon/port_allocator.rs:50-52 | the port cursor is in range in every reachable state |
| SupervisorTheorems.AutoPortIsFree | src/daemon/process_manager.rs:442-461 | an automatically assigned port is held by no Running or Stopping record and is the first such one that can be bound; the spawn is refused for want of a port exactly when none is left |
| SupervisorMoves.RecordsMove | src/daemon/actor.rs:351-605 | in any step, each record stays, has its exit noticed, is scheduled, begins or joins a stop the step asks for on it, or ends its own teardown; records appear only by Spawn and vanish only when a stop-all is answered |
| SupervisorMoves.ManualStaysParked | src/daemon/actor.rs:497-510 | a record parked by hand stays as it is until a Restart names it or a stop-all clears the table |
| SupervisorMoves.ExhaustedStaysDown | src/daemon/process_manager.rs:738-744 | a record given up on comes back only by a Restart or a file change for its generation; a stop can only park it |
| SupervisorMoves.RunningIsLeftAlone | src/daemon/actor.rs:351-523 | a running process changes only by its own exit or a stop, restart or file change meant for it |
| SupervisorMoves.StoppingEndsAsIntended | src/daemon/actor.rs:564-582 | a Stopping record leaves that state only when its own teardown reports, and is then parked, running under a new generation, or failed to start, as the last accepted intent said |
| SupervisorMoves.StaleWatchEvent | src/daemon/actor.rs:416-419 | a stop of an exited record with nothing to tear down is answered at once; a late watch event delivered after it begins to start the process again if and only if the record had not been parked by hand, and else changes nothing |
| SupervisorMoves.WaitersLearnTheOutcome | src/daemon/actor.rs:584-596 | when a teardown ends every waiter is answered: a Stop that it is stopped, a Restart with the new process exactly when there is one, else why not |
| SupervisorMoves.TimerSetOnce | src/daemon/actor.rs:330-348 | in any step from a reachable state, a record starts to wait for its restart only when no timer of its generation is in flight: none is doubled or replaced |
| SupervisorMoves.TimersStay | src/daemon/actor.rs:338-347 | a timer in flight stays there until it is delivered, and only the tick sets any |
| SupervisorMoves.TeardownStartedOnce | src/daemon/actor.rs:527-562 | a teardown starts only when none of its generation is in flight |
| SupervisorStopAll.OpenStopAll | src/daemon/actor.rs:664-699 | while a stop-all is open nothing runs, it waits for exactly the Stopping records, all to be parked, and every other record has nothing left to tear down |
| SupervisorStopAll.OpenStaysOpen | src/daemon/actor.rs:363-366 | no step other than a teardown reporting ends an open stop-all, changes what it waits for or drops a waiting client |
| SupervisorStopAll.ReportShrinks | src/daemon/actor.rs:598-603 | each teardown that reports takes exactly its own record off the list; the last answers every client |
| SupervisorStopAll.AnsweredMeansDown | src/daemon/actor.rs:701-713 | when a stop-all is answered the table is empty, nothing is being torn down and every incarnation ever spawned is gone |
| SupervisorStopAll.StopAllFinishes | src/daemon/actor.rs:664-713 | from any sound state with a stop-all open, running the teardowns alone ends it, in at most four steps per record |
| SupervisorOutcomes.ExitNoticed | src/daemon/process_manager.rs:589-610 | noticing an exit turns a running record whose leader has exited into an exit of its own with that code, the incarnation still to be reaped, and no other record into anything |
| SupervisorOutcomes.StopOutcome | src/daemon/actor.rs:404-425 | a record being stopped will be parked and has one waiter more; a running one, or one with a dead leader to reap, starts to be torn down with the right incarnation and exit; one with nothing left is answered at once, an unknown target too; all others only have exits noticed |
| SupervisorOutcomes.RestartOutcome | src/daemon/actor.rs:427-449 | the same for a restart, which tears down whatever is left, keeps the budget until it respawns, and is refused while a stop-all is open |
| SupervisorOutcomes.StopFinishedOutcome | src/daemon/actor.rs:564-635 | at the end of a teardown the record is parked, running under the next id, generation and incarnation, or failed to start, with the reported code; a manual restart alone sets its count to zero, whether or not it starts; name, port and policy stay, other records too; the last one of a stop-all clears the table |
| SupervisorOutcomes.TickOutcome | src/daemon/process_manager.rs:706-735 | an exit of its own comes back under always, or under on-failure unless the code is 0 (a signal has none): with the limit not reached it awaits a timer that is in flight, with the limit reached it is given up on without one; under never, no policy, or on-failure with code 0 it stays down without one |
| SupervisorOutcomes.AutoRestartOutcome | src/daemon/actor.rs:478-496 | a timer still waited for adds one to the count and starts the teardown of what is left of the exit; any other does nothing |
| SupervisorOutcomes.WatchRestartOutcome | src/daemon/actor.rs:497-518 | a file change for a generation neither being stopped nor parked by hand sets the count to zero and starts a teardown; any other does nothing |
| SupervisorOutcomes.StopAllOutcome | src/daemon/actor.rs:664-699 | a second stop-all joins the first; otherwise each record with anything to stop is being parked, waited for and torn down, and with none the table is cleared and the answer given at once |
| SupervisorOutcomes.SpawnOutcome | src/daemon/process_manager.rs:410-509 | the five ways a spawn is refused, in their order, each leaving the table alone; otherwise one record with the next id, a fresh generation and incarnation, count zero, and the port asked for, also with the proxy on, or the first free one from the cursor, which moves on past it |
| SupervisorOutcomes.StatusOutcome | src/daemon/process_manager.rs:645-688 | each record is reported running while its leader is not known to have exited, failed once given up on or not started, and otherwise exited, with the leader's code |
| SupervisorOutcomes.ExitQueryOutcome | src/daemon/process_manager.rs:573-587 | the answer is the code of a leader known to have exited, and none for a running record or an unknown target |
| SupervisorOutcomes.EnableProxyOutcome | src/daemon/actor.rs:465-474 | the proxy is turned on once, on the port given first |
| SupervisorOutcomes.EffectOutcome | src/daemon/process_manager.rs:215-241 | each effect of a teardown moves it on by one phase and sends its one signal; the code reported is that of the exit seen first, else the reaped one, else -9 |
| SupervisorOutcomes.RoutesOutcome | src/daemon/process_manager.rs:629-635 | every record with a port whose leader is not known to have exited is published under it, and when the map is exact nothing else is |
| SupervisorExamples.RouteGoesStale | src/daemon/actor.rs:404-405 | a reachable state whose published routes differ from the running ports |
| SupervisorExamples.StoppedYetRevived | src/daemon/process_manager.rs:546-559 | a run in which a failed respawn is followed by a stop that is answered, the old watcher's event arrives, and the process runs again |
| SupervisorExamples.IdTakesOldName | src/daemon/process_manager.rs:418-419 | a run from a process of that name through a stop-all to a new process that has the name as its id |
| Actor.RunTeardown | src/daemon/process_manager.rs:215-241 | sends TERM, then KILL, then reaps, in that order; the exit code is the first one observed, else the reaped one, else -9 |
| Actor.ProcessManagerActor.RefreshExitStates | src/daemon/process_manager.rs:589-610 | the loop notices every exited leader, keeps everything else, and says whether it saw one |
| Actor.ProcessManagerActor.Find | src/daemon/process_manager.rs:690-702 | finds by name first, then by id |
| Actor.ProcessManagerActor.StartTeardown | src/daemon/actor.rs:527-562 | the record becomes Stopping and a teardown takes over its incarnation |
| Actor.ProcessManagerActor.SpawnProcess | src/daemon/process_manager.rs:410-509 | creates a record with a fresh id, generation and incarnation, or refuses, exactly as the specification of a spawn says |
| Actor.ProcessManagerActor.Spawn | src/daemon/actor.rs:353-403 | takes exactly the spawn step |
| Actor.ProcessManagerActor.Stop | src/daemon/actor.rs:404-424 | takes exactly the stop step |
| Actor.ProcessManagerActor.Restart | src/daemon/actor.rs:426-447 | takes exactly the restart step |
| Actor.ProcessManagerActor.StopAll | src/daemon/actor.rs:664-699 | the loop over all records takes exactly the stop-all step |
| Actor.ProcessManagerActor.FinishStopAll | src/daemon/actor.rs:701-713 | clears the table and answers every client of the stop-all |
| Actor.ProcessManagerActor.Status | src/daemon/process_manager.rs:645-688 | takes exactly the status step |
| Actor.ProcessManagerActor.IsProcessExited | src/daemon/actor.rs:457-464 | takes exactly the exit query step |
| Actor.ProcessManagerActor.EnableProxy | src/daemon/actor.rs:465-474 | takes exactly the step that turns the proxy on, once |
| Actor.ProcessManagerActor.ClassifyRestartCandidates | src/daemon/process_manager.rs:706-735 | the two lists are exactly the exits of their own, not dealt with yet, that the policy brings back, by whether the limit is reached |
| Actor.ProcessManagerActor.ScheduleRestarts | src/daemon/actor.rs:311-349 | marks every record out of budget and sets one timer for every record to restart |
| Actor.ProcessManagerActor.Tick | src/daemon/actor.rs:298-304 | takes exactly the periodic step, which `SupervisorOutcomes.TickOutcome` describes |
| Actor.ProcessManagerActor.AutoRestart | src/daemon/actor.rs:478-496 | takes exactly the timer step |
| Actor.ProcessManagerActor.WatchRestart | src/daemon/actor.rs:497-516 | takes exactly the file-change step |
| Actor.ProcessManagerActor.StopFinished | src/daemon/actor.rs:564-605 | takes exactly the step that ends a teardown, which `SupervisorOutcomes.StopFinishedOutcome` describes |
| Actor.ProcessManagerActor.Handle | src/daemon/actor.rs:351-523 | for every command and message the object's new state is the one the state machine gives, and stays valid |
| Scheduler.StartupOrder | src/config.rs:88-142 | fails with an unknown dependency if and only if there is one, with a cycle if and only if all are known and there is a cycle, and otherwise group k holds, sorted, exactly the processes whose longest dependency chain has length k, every process in some group |
| Scheduler.DependenciesFirst | src/config.rs:86-142 | every dependency is in a strictly earlier group |
| Scheduler.LeIsDictionary | src/config.rs:134 | names in a group are in dictionary order: a beginning first, then by the first character that differs |
| Scheduler.LevelUnique | src/config.rs:118-140 | no process is in two groups |
| Scheduler.Release | src/config.rs:126-136 | no in-degree goes below zero however often a dependency is repeated |
| Scheduler.StuckMeansCyclic | src/config.rs:137-140 | if every process left depends on another one left, there is a cycle |
| LogIndex.LeRoundTrip | src/daemon/log_index.rs:61-65 | little-endian numbers decode to what was encoded |
| LogIndex.LeOnto | src/daemon/log_index.rs:128-131 | every byte string is the encoding of the number it decodes to |
| LogIndex.RecordRoundTrip | src/daemon/log_index.rs:61-65 | a record decodes to what was encoded |
| LogIndex.IndexRoundTrip | src/daemon/log_index.rs:83-165 | opening, counting and reading any range of a written index gives the records written, also with a torn record at the end |
| LogIndex.HeaderLayout | src/daemon/log_index.rs:50-58 | the sixteen bytes of the header: LIDX, version 1, base, little-endian |
| LogIndex.RecordLayout | src/daemon/log_index.rs:61-65 | a record is its offset, then its sequence number, eight bytes each, little-endian |
| LogIndex.OpensIff | src/daemon/log_index.rs:83-110 | a file opens as an index if and only if it begins with the header of some base |
| LogIndex.ReadRecordAgrees | src/daemon/log_index.rs:117-132 | reading one record gives that record, and fails beyond the last |
| LogIndex.IndexWriter.Create | src/daemon/log_index.rs:50-58 | two effects: an empty file, then the whole header |
| LogIndex.IndexWriter.WriteAll | src/daemon/log_index.rs:61-65 | bytes reach the file in order, with no effect on the disk while they fit the buffer |
| LogIndex.IndexWriter.Append | src/daemon/log_index.rs:61-65 | file and buffer together grow by the record; one that fits the buffer has no effect on the disk |
| LogIndex.IndexWriter.Flush | src/daemon/log_index.rs:68-70 | everything buffered reaches the file in one effect |
| LogWriter.RecordsPrefix | src/daemon/log_writer.rs:69-74 | each index record holds the start and sequence number of its line, and the records of a prefix are a prefix of the records |
| LogWriter.RotateLogFiles | src/daemon/log_writer.rs:194-225 | every log moves up one number together with its index, those beyond the limit are gone, number 0 is free and the numbers stay contiguous; every directory on the way is one of the cascade, with nothing below the gap moved, or one of the last four |
| LogWriter.Cascade | src/daemon/log_writer.rs:202-210 | the descending loop leaves each number's files one higher, and while it works on number j everything below j is untouched and log j is missing |
| LogWriter.RotationOnDisk | src/daemon/log_writer.rs:44-62 | after rotation and fresh files the directory holds the same stream less its oldest segment beyond the limit |
| LogWriter.OpenSink | src/daemon/log_writer.rs:103-113 | the directory holds the rotated segments and an empty current one |
| LogWriter.RotateIfExists | src/daemon/log_writer.rs:185-189 | rotation before a respawn keeps the five newest segments; without a current log nothing happens |
| LogWriter.ReopenLog | src/daemon/process_manager.rs:521-526 | an automatic or watch respawn rotates, a manual one truncates the current log |
| LogWriter.LogWriteState.WriteLine | src/daemon/log_writer.rs:37-92 | a line that fits the limit, or any without a limit, is appended to the current log and every rotated file stays; one that does not fit starts a log of its own, based on its number, and every log moves up one number; the line is broadcast and the counter moves on; in every directory the write goes through, rotation included, the current index is a header and whole records for complete lines, or missing or empty exactly from its renaming until the new header |
| LogWriter.AppendsInPlace | src/daemon/log_writer.rs:69-79 | the first of these in bytes, for any directory that holds the stream |
| LogWriter.MovesToFresh | src/daemon/log_writer.rs:194-225 | the second |
| LogWriter.LogWriteState.Append | src/daemon/log_writer.rs:65-85 | the line is appended without rotation and the index flushed every 64 lines; every directory on the way holds whole index records for complete lines, at most 64 short |
| LogWriter.LogWriteState.Put | src/daemon/log_writer.rs:69-79 | record, text and newline: two effects on the disk, none of them on the index |
| LogWriter.LogWriteState.FlushIndex | src/daemon/log_writer.rs:82-85 | one effect completes the index |
| LogWriter.LogWriteState.Rollover | src/daemon/log_writer.rs:39-63 | the rotation inside a write gives the rotated stream, and goes through exactly the flush, the cascade, the turnover of the current files and the new header |
| LogWriter.LogWriteState.Finish | src/daemon/log_writer.rs:181 | at the end of a capture the index is complete |
| LogWriter.DurableWhileWriting | src/daemon/log_writer.rs:69-79 | however much of a line has reached the log, the index on disk covers only complete lines |
| LogWriter.RolloverKeepsIndexSound | src/daemon/log_writer.rs:39-63 | at every effect of a rotation the current index is sound for the old segment, and missing or without header exactly from its renaming to the new header |
| LogWriter.WriteIsSound | src/daemon/log_writer.rs:37-92 | the same over all effects of a write |
| LogRuns.RetainedIsSuffix | src/daemon/log_writer.rs:184-225 | over any history that truncated nothing, what the directory holds is the latest part of everything written, in at most max + 1 segments |
| LogRuns.Perform | src/daemon/log_writer.rs:37-92 | one line, end of capture or restart takes the files to the next stream |
| LogRuns.RunHistory | src/daemon/log_writer.rs:37-225 | from an empty directory the writer takes the files through any history, and they hold exactly its stream |
| LogRuns.ManualRestartKeepsSuffix | src/daemon/log_writer.rs:106 | a manual restart that finds the current log empty, or nothing older, loses nothing |
| LogRuns.ManualRestartLosesSuffix | src/daemon/log_writer.rs:106 | any other leaves a gap when no two lines are alike |
| LogRuns.ManualRestartKeepsSuffixIff | src/daemon/log_writer.rs:106 | after any history that left no gap, with lines named by their place in it, a manual restart leaves none if and only if the current log was empty or nothing older is kept |
| LogRuns.ManualRestartCanLose | src/daemon/log_writer.rs:106 | a history in which it loses a line from the middle |
| LogRuns.SegmentsStayBounded | src/daemon/log_writer.rs:38-39 | over any history every segment is within the limit or holds a single line |
| LogRuns.RotatedOnlyWhenFull | src/daemon/log_writer.rs:38-39 | over any history of one incarnation, each rotated segment and the first line of the next one together exceed the limit, and that line's number is the base of the next one |
| LogRuns.IndexLagsByLessThan64 | src/daemon/log_writer.rs:81-85 | over any history at most 63 lines are not indexed |
| DiskLogReader.ReadLinesAt | src/tui/disk_log_reader.rs:425-434 | the loop after the seek reads the next n lines |
| DiskLogReader.ReadLinesFromSegment | src/tui/disk_log_reader.rs:406-446 | indexed read, or sequential scan when there is no readable index |
| DiskLogReader.IndexedReadIsSlice | src/tui/disk_log_reader.rs:416-436 | through header, records, seek and line reads a segment gives exactly the slice asked for, also when the log is ahead of its index |
| DiskLogReader.FallbackAgreesIff | src/tui/disk_log_reader.rs:438-445 | the scan gives the same lines as the indexed read if and only if none of them ends in a carriage return |
| DiskLogReader.DiscoverSegments | src/tui/disk_log_reader.rs:315-357 | finds the rotated segments up to the first missing number, oldest first, then the current one |
| DiskLogReader.ReadLinesFromSegments | src/tui/disk_log_reader.rs:361-391 | the loop over segments joins the parts of the range in each |
| DiskLogReader.SpanIsWindow | src/tui/disk_log_reader.rs:361-391 | reading a range over segments gives that range of the lines of all of them |
| DiskLogReader.ReadFailsIff | src/tui/disk_log_reader.rs:406-446 | reading a segment fails if and only if there is something to read and no log to read it from |
| DiskLogReader.ReadLines | src/tui/disk_log_reader.rs:95-103 | never fails; on any directory that shows these segments, also in the middle of a write, the read is exactly the slice of their lines |
| DiskLogReader.CountLines | src/tui/disk_log_reader.rs:73-75 | the line count is the number of lines that can be read |
| DiskLogReader.DurableHolds | src/daemon/log_writer.rs:69-85 | while lines are written, from the header of the current index on, a directory holds the stream as far as its index says |
| DiskLogReader.HoldsReads | src/tui/disk_log_reader.rs:315-391 | a directory that holds a stream shows its indexed segments |
| DiskLogReader.ReadableIsLatestWritten | src/tui/disk_log_reader.rs:93-103 | with the index flushed, the readable lines are the latest of everything written |
| DiskLogReader.RunReadable | src/daemon/log_index.rs:61-65 | after any history of lines without a newline and numbers of eight bytes, every offset fits its eight bytes and every segment can be read; with a size limit this holds however much is written |
| DiskLogReader.LogRoundTrip | src/tui/disk_log_reader.rs:361-446 | on the directory of any history of such lines that truncated nothing, index flushed, a read gives exactly the slice asked for of the latest lines written |
| DiskLogReader.WriteThenRead | src/tui/disk_log_reader.rs:93-103 | the same with the writer itself going through the history from an empty directory and the reader reading what it left |
| ReadDuringWrite.WriteAlwaysReadable | src/daemon/log_writer.rs:37-92 | with at least two rotated files kept, at every effect of every write, also between the renames of a rotation, a reader sees a latest part of the lines kept before or a first part of those kept after; always but for the moment between the renames of the current log and its index, and there if and only if no moved line ends in a carriage return |
| ReadDuringWrite.BetweenRenamesIff | src/daemon/log_writer.rs:212-218 | that moment by itself: the log has moved, its index has not |
| ReadDuringWrite.CascadeShown | src/daemon/log_writer.rs:202-210 | in the middle of the cascade the reader stops at the gap and sees the newest segments whole |
| ReadDuringWrite.TurnoverShown | src/daemon/log_writer.rs:212-224 | from the renaming of the current files to the new header the reader sees the rotated segments whole |
| ReadDuringWrite.DurableShown | src/daemon/log_writer.rs:65-85 | while lines are written the reader sees complete lines only, in order |
| InterleavedReader.ReadSingleLine | src/tui/disk_log_reader.rs:293-312 | the loop finds the segment of an absolute line and reads it |
| InterleavedReader.SingleIsText | src/tui/disk_log_reader.rs:293-312 | that is the line at this position |
| InterleavedReader.BuildMergedIndex | src/tui/disk_log_reader.rs:264-290 | all lines of both streams, stably sorted by sequence number |
| InterleavedReader.SortSorts | src/tui/disk_log_reader.rs:285 | the stable sort is a permutation in order of sequence number, then stream, then position |
| InterleavedReader.InOrderUnique | src/tui/disk_log_reader.rs:285 | that order leaves exactly one arrangement |
| InterleavedReader.MergeOrder | src/tui/disk_log_reader.rs:264-290 | whatever the directories hold, the merged view goes by sequence number, standard output first among equals, then by position |
| InterleavedReader.UnindexedLast | src/tui/disk_log_reader.rs:264-290 | lines of a segment without a readable index carry the largest number and so come last |
| InterleavedReader.ReadInterleaved | src/tui/disk_log_reader.rs:106-145 | filling in each stream's lines separately gives the merged window line by line |
| InterleavedRuns.TakeSnapshot | src/tui/disk_log_reader.rs:50-70 | discovering the segments of both streams gives a read the interleaved theorems speak of |
| InterleavedRuns.MergeIsPermutation | src/tui/disk_log_reader.rs:264-290 | the merged index of two directories is a permutation of all indexed lines of both, in order |
| InterleavedRuns.MergedReads | src/tui/disk_log_reader.rs:133-142 | every merged entry reads as the text its stream holds there |
| InterleavedRuns.PairTracks | src/daemon/process_manager.rs:345-348 | with two writers on one counter, each retained entry is the line of the history with its number, in order |
| InterleavedRuns.IncarnationMerge | src/tui/disk_log_reader.rs:105-145 | within one incarnation, for any interleaving of the writers, any rotation and any index lag, the merged view is strictly increasing in sequence number and shows each line as written |
| InterleavedRuns.CompleteMergeIsHistory | src/tui/disk_log_reader.rs:105-145 | with nothing rotated away and both indexes flushed it is the history itself |
| InterleavedRuns.StreamOrderKeptIff | src/daemon/process_manager.rs:304-305 | the merge keeps a stream's own order if and only if its sequence numbers never go down |
| PairRuns.PairIsRuns | src/daemon/process_manager.rs:345-348 | each side of an incarnation is the history of its own stream's lines, with the numbers they drew |
| PairRuns.WriteTo | src/daemon/log_writer.rs:37-92 | one line of either stream, with its number from the shared counter, leaves the other stream's writer and files alone |
| PairRuns.WriteBoth | src/daemon/process_manager.rs:304-398 | from two empty directories both writers go through any interleaving of lines, and each directory holds exactly its side |
| PairRuns.MergeShowsVisible | src/tui/disk_log_reader.rs:105-145 | the merged view is the kept and indexed lines of the history in its order, and the whole history if and only if those are all |
| PairRuns.WriteBothThenRead | src/tui/disk_log_reader.rs:105-145 | the same with the two writers themselves going through the history, either capture ended or not, and the interleaved reader reading what they left |
| PairRuns.SmallPairWhole | src/daemon/log_writer.rs:38-39 | with both captures ended and all lines within the size limit of one file, everything is kept and indexed |
| LogGrowth.RestartBreaksOrder | src/daemon/process_manager.rs:304-305 | a history with an automatic restart whose third line is shown between the first two |
| LogGrowth.IndexedTextsGrow | src/daemon/log_writer.rs:37-92 | from a point on at which nothing is dropped, what a reader sees of one stream is always a first part of what it sees later |
| LogGrowth.MergeGrowsIff | src/tui/disk_log_reader.rs:264-290 | adding lines leaves the merged view a first part of the new one if and only if each comes after all there were |
| LogGrowth.LateFlushInsertsAbove | src/tui/disk_log_reader.rs:264-290 | two lines, one in each stream, of which the earlier appears above the later only when its index is flushed |
| LogGrowth.BlankRun | src/daemon/log_writer.rs:81-85 | without a rotation n empty lines leave the last n modulo 64 of them unindexed |
| LineScan.MatchesExactly | src/tui/disk_log_reader.rs:185-189 | the positions found are exactly the matching ones in the range, ascending |
| LineScan.ScanSingleStream | src/tui/disk_log_reader.rs:169-194 | the chunked scan finds every matching position from the start on |
| LineScan.ScanInterleaved | src/tui/disk_log_reader.rs:196-216 | the same over the merged view |
| LineScan.ShownIsServed | src/tui/disk_log_reader.rs:78-91 | the count of both streams is the number of merged lines, and all of them can be read |
| App.OutputBuffer.Push | src/tui/app.rs:39-53 | the ring is the latest part of everything pushed and the counters count its lines by stream |
| App.OutputBuffer.CountIn | src/tui/app.rs:55-72 | the counters give the number of lines in each mode |
| App.RingIsRecent | src/tui/app.rs:74-90 | each mode's view of the ring is the latest part of that mode's lines, and the ring holds as many lines as its limit allows |
| App.RingBoundedIff | src/tui/app.rs:40 | the ring is bounded if and only if its limit is at least one |
| App.WindowIs | src/tui/app.rs:340-342 | a window ends the offset above the bottom and holds the lines just before that, as many as the height or as there are; at the bottom it is the last part |
| App.Pane.VisibleLines | src/tui/app.rs:324-368 | in all three cases line i shown is line total - offset - shown + i of the log up to the ring followed by the ring, and as many are shown as the height allows; when log and ring are latest parts of what was shown in this mode it is the window of the longer, and once the log has caught up of the whole history, its last lines when not paused |
| App.Pane.TotalLineCount | src/tui/app.rs:283-287 | the total is the length of what is scrolled over |
| App.CombinedLength | src/tui/app.rs:283-287 | that is the longer of log and ring |
| App.CombinedIsHistoryIff | src/tui/app.rs:348-366 | in every mode, the pane scrolls over the true history if and only if the log reaches as far as the part the ring lacks and agrees with it there |
| App.LaggingPaneIsHistoryIff | src/tui/app.rs:348-366 | in a mode of one stream, with a log that lacks its latest lines, that is if and only if the log has caught up or the ring still has everything |
| App.CombinedIsLatest | src/tui/app.rs:348-366 | with a log that has lost its oldest lines the pane scrolls over the longer of log and ring |
| App.LaggingPaneLosesLines | src/tui/app.rs:348-366 | after any number of lines beyond the ring whose last batch of 64 is not full, the pane shows fewer lines than there are |
| App.Pane.LineCountFor | src/tui/app.rs:267-278 | with a filter active the number of its matches, otherwise the length of what is scrolled over |
| App.Pane.ScrollUpBy | src/tui/app.rs:214-225 | pauses and moves up, never past the first full window, of the matches with a filter active |
| App.Pane.ScrollDownBy | src/tui/app.rs:234-242 | moves down and unpauses at the bottom |
| App.Pane.ScrollToTop | src/tui/app.rs:250-258 | stores the total as the offset, the number of matches with a filter active |
| App.WindowFullIff | src/tui/app.rs:340-342 | the window is full if and only if the offset leaves room for it |
| App.TopShowsNothing | src/tui/app.rs:255-256 | at the offset stored for the top the window is empty |
| App.UpdatesEqualFullScan | src/tui/app.rs:561-589 | on a growing log any sequence of updates gives what one scan of the whole log gives |
| App.LooksGrow | src/tui/app.rs:561-589 | the log of one stream does grow from look to look once nothing is dropped |
| App.UpdateExactIff | src/tui/app.rs:561-589 | for any two looks, grown or not: an update leaves the index exact if and only if the log is no shorter and each scanned line matches or not as it did |
| App.LateFlushMisleadsFilter | src/tui/app.rs:561-589 | two lines, one in each stream, and two reads: when the earlier is indexed late, the update finds the later line twice and keeps its old place |
| App.BuildRaceExactIff | src/tui/app.rs:480-499 | when lines arrive between scan and count the index is right if and only if none of them matches |
| App.UpdateRaceExactIff | src/tui/app.rs:574-588 | the same for an update, where they would be indexed twice |
| App.RacesHappen | src/tui/app.rs:480-499 | a batch of 64 lines reaching the index between two looks is missed for good by a build and counted twice after an update |
| App.FilteredIndex.Update | src/tui/app.rs:561-589 | appends the new matches and remembers how far it looked |
| App.MatchesPointAtSelected | src/tui/app.rs:456-461 | the k-th position in the index is the k-th matching line |
| App.FilteredVisibleLines | src/tui/app.rs:430-471 | with an index that is up to date the same holds of the matching lines |
| Wait.FirstMatchFinds | src/daemon/server.rs:279-285 | the search finds the first matching line, and none if and only if there is none |
| Wait.SearchIs | src/daemon/server.rs:274-292 | the history search gives the first line the expression accepts, or that contains the pattern as plain text when it is no expression or does not compile |
| Wait.WaitFor | src/daemon/wait_engine.rs:12-88 | an invalid expression is refused first, an exit seen at the start answered next; a wait that listens passes over lines of others, lines not accepted, lag and polls without an exit, and the first other event settles it: a match, the exit if one is asked for and known, the closed channel, or the timeout |
| Wait.InvReached | src/daemon/log_writer.rs:76-91 | every interleaving of writer and waiter keeps log, broadcasts, queue and history in step |
| Wait.NoLineLost | src/daemon/server.rs:266-303 | for every interleaving, each line of the target is in the history read or is received |
| Wait.NoMatchLost | src/daemon/server.rs:266-303 | if neither history nor anything received matched, no line matches, save one that owes its match to a trailing carriage return |
| Wait.WaitRequest | src/daemon/server.rs:249-304 | the whole request: unknown process, a match in the log under the name given, or what listening gives; while it has not answered with a match, none of the lines there or received matches; with no line received under that name it answers with a match if and only if the log has one |
| Wait.IdHearsNoProcess | src/daemon/server.rs:257-273 | given an id that is no name, the wait is accepted, no line of any process there is settles it, and what their logs hold does not matter |
| Wait.OldLogAnswers | src/daemon/server.rs:271-293 | a run in which a process named like an id says it is ready and a stop-all ends it: a wait for the next process by that id answers with the old line |

## Left out

- Signals, clocks and the operating system: a leader exits at any time, a teardown's effects are steps in
  their order, grace periods and delays may take any time, errors from `waitid` are not modelled.
- Starting a command: an oracle that succeeds with a fresh incarnation or fails. Command, directory,
  environment, pid and start time of a record are not modelled, nor the URLs in replies.
- Failing writes, writes that reach the disk in several parts (but for a line's text, see
  `LogWriter.DurableWhileWriting`), full disks and unreadable files, panicking teardown tasks, actor shutdown, closed channels.
- Watcher setup: a file change may be reported for any generation ever issued, at any time.
- The queries for a process's existence, the session name and an output subscription, and the lines the
  supervisor itself adds to a log: they change nothing in the table.
- ReadDuringWrite.WriteAlwaysReadable: asks for at least two rotated files, because with one the moved log
  meets an older index; the code always keeps five.
- Machine integer widths, except in the index and the port range: ids, generations, counts and offsets
  are unbounded. Index round trips ask that offsets and sequence numbers fit eight bytes, which follows
  from the lines written (`DiskLogReader.RunReadable`).
- Messages from tasks and timers are delivered in any order and kept by the generation they carry; that
  none in flight is ever replaced is proved (`SupervisorMoves.TimerSetOnce`, `SupervisorMoves.TeardownStartedOnce`).
- Text encoding: lines are byte strings without a newline; that they are valid UTF-8 is not modelled.
- The half-second cache of discovered segments, and effects in the middle of one read: a read sees one
  directory, though that may be any the writer goes through.
- Regular expressions and substring search: a filter is any predicate on a line.
- The capture loop's choice between pipe and supervisor lines: any sequence of writes is allowed.
- Waiting assumes no lagging receiver, no rotation and no truncation of the log while it lasts.
- The pane is that of one process; choosing a process, drawing, keys and reconnecting are not modelled.
- Command line, project file parsing, session discovery, HTTP forwarding and the name checks' details.
