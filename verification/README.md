# arig's supervisor kernel, modelled and verified

arig runs a stack of services on one machine. `up` sorts the services into waves by
`depends_on`, builds them, spawns wave after wave behind oneshots and readiness probes,
and then sits in a loop that takes `stop`, `start`, `restart` and `build` commands
until the stack goes down in reverse waves. This project models that kernel, the
tracker behind `arig ps`, and the small parts they lean on, and proves what each is for.

## How it is put together

| file | what is in it |
| --- | --- |
| `Config.dfy`, `Events.dfy` | service definitions, the registry as functions, the bus vocabulary, commands and kernel messages |
| `Dag.dfy` | wave computation: Kahn's algorithm by layers, and what its layers mean |
| `Tracker.dfy` | the state tracker: one service's row as a fold over the event stream, and the class that keeps all rows in one table |
| `Latches.dfy` | the build and startup latches and the loops that wait on them |
| `Shutdown.dfy`, `Teardown.dfy` | the journal `shutdown` leaves, stated as a function, and the loops that produce it |
| `Machine.dfy` | the steady-state kernel as a transition system: state, what each message does, everything that can happen around it, runs |
| `Supervisor.dfy` | the same kernel as the object the program has, and its loop, whose executions are runs |
| `Invariant.dfy`, `Course.dfy`, `Keeps.dfy` | the command engine's invariant, what `advance` comes down to under it, and that every step keeps it |
| `Completions.dfy` | which completions are outstanding, and what becomes of stale ones; refusals and failed builds |
| `History.dfy` | a row read off the stream by position: what each column says, for any stream |
| `Births.dfy` | which start of the stream each held instance goes back to, and what has been said of it since |
| `Agreement.dfy` | the tracker's rows agree with the kernel's own state |
| `Custody.dfy` | where every instance is; nothing orphaned, nothing stopped twice |
| `Answers.dfy`, `Verdicts.dfy` | every client answered once; Ok means it was done |
| `Quiescence.dfy` | a measure that every step but a new command lowers |
| `Runs.dfy` | the theorems over whole runs, from the moment the stack is up |
| `Descent.dfy` | the way down: what brought it about, what is left of every instance, how many moves it takes |
| `LastRows.dfy` | what `ps` shows on the way down, and what it showed last |
| `Readiness.dfy`, `LateProbe.dfy` | whose probe a row that reads ready goes back to, and the run in which it is not its own |
| `Definitions.dfy` | which commands are taken, what the others are told, and what a command spawns and builds, over the config file, the registry and the request |
| `Promises.dfy` | what each verb promises and when its client hears, over the request's own fields |
| `Gating.dfy`, `Boot.dfy` | startup, from the config to the state the steady loop begins in |
| `Fanout.dfy` | the bus, a subscriber that may lag, and the drain |
| `Fnv.dfy` | the 64-bit FNV-1a loop |

A run of the steady state is a sequence of labels: a client sends a command, the
kernel takes the next message, a task begins or finishes a stop, announces its outcome
on the bus, or reports it to the kernel, an aborted task is dropped or reports all the
same, a log line appears, a child exits or its wait fails, a shutdown is asked for, a command is settled
on the way down, the stack is taken down. Any enabled label may come next, so a proof
about `Run` is a proof about every interleaving. `Runs.Entry` is the state the loop is
entered in, `Boot.Starter.Run` proves that startup reaches it, `Runs.RunSound`
carries every step lemma over whole runs, and `Supervisor.Steady.SteadyState` proves
that what the program's object does, whatever the schedule, is such a run.

What the program asks of the world is a parameter: what the config file holds at each
read, whether a spawn succeeds and with which pid, how a build, a probe, a oneshot or
an instance ends. Error texts are tags (`Reason`).

The journal (`Op`) and the ledger (`Accepted`) are history. The journal lists spawns,
`begin_stop` and `finish_stop` calls and task outcomes in the order they happen; the
ledger lists each accepted command with what ran at the time. No branch reads either.

## What turned out not to hold

- A startup that fails does not always take down what it started. A spawn error inside
  a wave returns at once (`src/supervisor/mod.rs:554`). `Boot.SpawnFailureStrands` gives
  the stack. `Boot.Starter.ComeUp` proves exactly when, from the waves and the world
  alone: a long-running instance is left up if and only if the first thing to go wrong is
  the spawn of some `waves[w][i]` and a long-running service is ahead of it, in an earlier
  wave or earlier in its own. The order within a wave is a hash map's, so
  `Boot.Starter.Run` brackets it by depth in the graph: a long-running service strictly
  less deep makes it certain, and without one no deeper it cannot happen.
- Going down does not always account for every instance. The loop also goes down when
  waiting for a child fails (`src/supervisor/mod.rs:745-757`, `:780-783`), which a Docker
  wait can do with its container up (`src/runtime/docker.rs:294-296`). That child is then
  left alone: not told to stop, not announced as gone, its row still reading running.
  `Descent.FailedWaitLeavesItUp` gives the run, for any child of any stack;
  `Descent.AllAccountedUnlessWaitFailed` proves that every instance a run ever had is
  stopped once or announced as exited if and only if the run took no such exit.
- A row can read ready before the probe of the instance it speaks of has passed. Taking
  over from a command that watches its probe aborts the probe's task, which stops it only
  where it next yields; one already past its last check announces all the same
  (`src/supervisor/mod.rs:1655-1661`), and the tracker cannot tell whose announcement it
  is (`src/state.rs:283-287`). `LateProbe.ReadyTooSoon` gives the run, for any stack and any
  probed service; `Readiness.WhoseProbe` proves that a spawned instance's row reads ready
  if and only if, since its spawn, its own probe passed or that of an earlier command did.
- What `wait_built` answers does depend on when it looks. It reads the build latch and
  then the startup latch (`src/state.rs:168-177`); if the builds finish and startup fails
  between the two reads, it reports the failure although the builds finished.
  `Latches.TornGlance` gives the history, `Latches.GlanceIsTrueUnlessTorn` proves that a
  look tells the truth exactly when it is not torn in this way, and
  `Latches.OneMomentIsEnough` that one atomic look at both would always agree.

## Model

| member | source | states |
| --- | --- | --- |
| `Dag.Entries` | src/dag.rs:19-33 | the two maps count every `depends_on` entry, duplicates included, on both sides |
| `Dag.Discount` | src/dag.rs:50-60 | discounting one finished service leaves every degree at the number of entries still waited for, and queues a service exactly when its last one goes, once |
| `Dag.StillWaiting` | src/dag.rs:53-54 | a degree about to be lowered is positive, however often a dependency is repeated: no underflow |
| `Dag.FinishWave` | src/dag.rs:46-63 | after a wave the queue lists, once each, exactly the services whose dependencies are all done, and each depends on a member of that wave |
| `Dag.Kahn` | src/dag.rs:35-63 | when the queue runs dry the waves are sound and every service not visited is blocked |
| `Dag.StuckAt` | src/dag.rs:65-67 | if not every service was visited there is a real cycle among the unvisited ones |
| `Dag.StuckMeansCycle` | src/dag.rs:65-67 | a finite set in which everyone depends on a member holds a cycle |
| `Dag.FindUnknown` | src/dag.rs:10-17 | reports a dependency without a service if and only if there is one |
| `Dag.Toposort` | src/dag.rs:7-70 | unknown-dependency error iff some name is unknown; circular error iff all are known and a cycle exists; otherwise every service is in exactly one non-empty wave, all its dependencies earlier and one exactly one wave earlier |
| `Dag.LayersExcludeCycles` | src/dag.rs:45-67 | a complete layering and a cycle (self-loops included) exclude each other |
| `Dag.WaveIsLongestChain` | src/dag.rs:45-63 | a service's wave is the length of its longest dependency chain: attained by one, exceeded by none |
| `Dag.DepthIsUnique` | src/dag.rs:45-63 | the graph alone decides every service's wave |
| `Dag.LeastLayering` | src/dag.rs:45-63 | no assignment that puts dependencies first puts any service earlier |
| `Dag.WaveMap` | src/supervisor/mod.rs:691-695 | the name-to-wave map has every service under its wave, dependencies strictly lower |
| `Tracker.EveryRowOk` | src/state.rs:210-345 | for any event stream: running implies desired up, has run, has a start time; stopped or building implies no pid and no start time |
| `Tracker.ViewUntouched` | src/state.rs:210-345 | events about other services leave a row as it was |
| `Tracker.RestartsCountStarts` | src/state.rs:228-259 | restarts are the starts after the first, a row seeded by a build not counting as one |
| `Tracker.BuildIsTransparent` | src/state.rs:298-336 | a build of something that has run, started and finished, is the identity on its row |
| `Tracker.StateTracker.Apply` | src/state.rs:210-345 | folding one event into the table keeps names unique and every row equal to its service's own view of the stream, whose columns `History` reads off by position; rows keep their order, a new one goes last, a finished oneshot's goes |
| `Tracker.StateTracker.FinishStartup` | src/state.rs:135-146 | the first verdict stays |
| `History.RowExists` | src/state.rs:210-345 | for any stream: there is a row iff the service was started or built and no oneshot success of it came after |
| `History.InstanceColumns` | src/state.rs:214-259 | kind, wave and dependencies are those of the last start |
| `History.PidAndTimeColumns` | src/state.rs:273-282 | the pid is the last start's until a stop; the start time goes with a stop or an exit |
| `History.ReadyColumn` | src/state.rs:283-287 | after the last start: passed iff a `ServiceReady` of it came and no stop since; unchecked once stopped; before that awaited iff the start said it is probed |
| `History.DesiredColumn` | src/state.rs:261-272 | down iff a stop was asked for since the last start and no start after it |
| `History.StateColumn` | src/state.rs:298-342 | the state is where the last start, stop, request or exit put it; a stopped one reads building while a build of it is out |
| `Latches.VerdictStays` | src/state.rs:138-146 | once a verdict is recorded no later write changes it |
| `Latches.AnswerMeans` | src/state.rs:164-191 | a run answers Ok iff the builds finished or the first verdict written was Ready, and an error iff they never did and the first verdict was that failure |
| `Latches.OneMomentIsEnough` | src/state.rs:164-191 | waiters that read both latches at one moment are told the same whenever they look |
| `Latches.GlanceIsTrueUnlessTorn` | src/state.rs:164-191 | the answer of the two separate reads is the run's own iff the builds did not finish and startup fail between them |
| `Latches.TornGlance` | src/state.rs:168-177 | a history and two read times for which a waiter is told of a failure although the builds finished |
| `Latches.WaitBuilt` | src/state.rs:164-191 | the loop answers at the first look that settles it, and truly unless that look was torn |
| `Latches.DecidedIsAnswered` | src/state.rs:160-163 | a waiter that looks after the fact is answered at once |
| `Latches.WaitStartup` | src/state.rs:193-208 | every waiter that is answered gets the run's one verdict |
| `Shutdown.ShutdownStops` | src/supervisor/mod.rs:1685-1725 | for any children and any skipped index, each other child is begun once and then finished once, the skipped one never |
| `Shutdown.ShutdownOrder` | src/supervisor/mod.rs:1686-1711 | a later wave has finished before an earlier one is begun, and a whole wave is begun before any of it is waited for |
| `Shutdown.BelowTouches` | src/supervisor/mod.rs:1692-1724 | nothing else is done: every operation is a stop call on one of the children |
| `Teardown.WaveIndices` | src/supervisor/mod.rs:1693-1699 | the indices collected for a wave are those of its children but the skipped one, in order |
| `Teardown.StopAll` | src/supervisor/mod.rs:1704-1723 | two loops: all begins in index order, then all finishes, each with its exit event |
| `Teardown.TakeDown` | src/supervisor/mod.rs:1685-1725 | the loops leave exactly the journal and the events `ShutdownOps` and `ShutdownEvents` describe |
| `Supervisor.Steady.Locate` | src/supervisor/mod.rs:1125 | first child of that name, or none |
| `Supervisor.Steady.AcceptCommand` | src/supervisor/mod.rs:846-903 | the whole new state after a command is taken or refused, which `Definitions.TakenOrToldWhy` reads over the file and the registry |
| `Supervisor.Steady.Proceed` | src/supervisor/mod.rs:1022-1062 | the loop over phases terminates in the state `Advance` defines |
| `Supervisor.Steady.HandleMessage` | src/supervisor/mod.rs:807-844 | the whole new state after any message, late completions included |
| `Supervisor.Steady.Receive` | src/supervisor/mod.rs:729-737 | taking a message is the transition, and keeps every invariant |
| `Supervisor.Steady.TakeDown` | src/supervisor/mod.rs:738-755 | the teardown loops make the last transition, and keep every invariant |
| `Supervisor.Steady.SteadyState` | src/supervisor/mod.rs:705-758 | whatever comes next at each turn, what the object does is a run from its entry state; its mode goes back to the action that set it; when it returns nothing is in flight, every command taken has one answer, and every instance is accounted for unless a wait failed |
| `Supervisor.PlayedStays` | src/supervisor/mod.rs:743-754 | after the return nothing more happens |
| `Course.AdvanceIsNow` | src/supervisor/mod.rs:1024-1194 | under the invariant `advance` re-reads nothing, finds the service where the plan expects it, and starts at most one task |
| `Keeps.StepKeeps` | src/supervisor/mod.rs:705-1220 | every step of the kernel, its tasks, its clients and the world keeps the engine's invariant |
| `Keeps.RunKeeps` | src/supervisor/mod.rs:705-1220 | so every run does |
| `Keeps.AdmitHole` | src/supervisor/mod.rs:876-902 | an accepted command starts between phases, with its definitions at hand and the service where its first phase expects it |
| `Keeps.NothingOutstanding` | src/supervisor/mod.rs:888-889 | while a command is between phases no live task and no queued completion carries its number |
| `Keeps.TakeKeeps` | src/supervisor/mod.rs:810-842 | the completion a command was waiting for puts it, and no other, between phases |
| `Completions.AtMostOne` | src/supervisor/msg.rs:56-60 | no command, over or not, has two completions outstanding |
| `Completions.ExactlyOne` | src/supervisor/mod.rs:1099-1118 | a command in flight has exactly one, of the kind of its current phase: its live task or that task's queued message |
| `Completions.StaleIsDropped` | src/supervisor/mod.rs:810-834 | a completion of a command that is over or taken over changes nothing |
| `Completions.CurrentMovesOn` | src/supervisor/mod.rs:810-842 | a current one ends the command or leaves it waiting for a task that did not exist before |
| `Completions.OnlyProbesAreLeftBehind` | src/supervisor/mod.rs:880-887 | the only tasks that can outlive their command are probes |
| `Completions.RefusalIsNoOp` | src/supervisor/mod.rs:857-874 | a refused command leaves no trace but its error: children, commands, numbers, tasks and events are as before |
| `Completions.WhyRefused` | src/supervisor/mod.rs:908-950 | a command is planned iff its service is long-running, no other command has work under way on it, and it runs for a stop and does not for a start; each refusal names the condition that failed |
| `Completions.BusyMeansWorkOutstanding` | src/supervisor/mod.rs:103-111 | a command is refused as in progress iff a stop or a build of an earlier one is outstanding; one that only watches its probe refuses nobody |
| `Completions.ReloadKeepsShape` | src/supervisor/mod.rs:972-1005 | an edited definition is adopted iff the file is readable, still has the service, and gives it the same type and the same set of dependencies |
| `Completions.TakeOverIsAnnounced` | src/supervisor/mod.rs:876-902 | taking a service over from a command that watches its probe aborts that probe, tells a client still waiting that it was superseded, and leaves the service in the new command's hands |
| `Completions.FailedBuildSparesTheService` | src/supervisor/mod.rs:830-842 | a failed build inside `restart --build` leaves running exactly what ran before the command, and no later phase starts |
| `Completions.NoFallback` | src/supervisor/mod.rs:1068-1187 | whenever a phase runs, its definition is the one read at accept, a stop finds the service, a start does not |
| `Definitions.TakenOrToldWhy` | src/supervisor/mod.rs:847-950 | a command is taken iff its service is long-running and not busy, runs for a stop and does not for a start, and the file gives it a definition of the same shape that the runtime accepts and whose probe can be served, or that has a build; any other changes nothing but one answer, whose reason names something that is wrong |
| `Definitions.RejectedDefinitionChangesNothing` | src/supervisor/mod.rs:1010-1020 | a start or restart whose readable definition the runtime does not accept leaves children, commands, tasks, events and journal as they were and is answered with an error |
| `Definitions.SpawnsWhatTheConfigSaid` | src/supervisor/mod.rs:1010-1020 | over any run, what a command spawned is the definition the file held when the command was taken, and one its runtime exists for and accepts |
| `Definitions.BuildsWhatTheConfigSaid` | src/supervisor/mod.rs:954-969 | over any run, a build runs the plan the runtime makes of the definition the file held when the command was taken |
| `Promises.OkKeepsThePromise` | src/supervisor/mod.rs:1043-1059 | over any run and verb by verb: Ok to a stop means the old instance is gone, to a build that it succeeded, to a start or restart that its own instance was spawned, after the old one's end and the build, and, unless the request said not to wait, that a probe its definition binds has passed |
| `Promises.AnsweredWhenAsked` | src/supervisor/msg.rs:39-44 | at every spawn of every run: a client that will not wait, or has nothing to wait for, is answered Ok in that step; any other has had no answer, and its command goes on for it |
| `Promises.ProbeGaveUpIsTold` | src/supervisor/mod.rs:822-829 | a probe that gives up leaves the service up, and a client that waited is told what the probe said |
| `Promises.FailedSpawnIsTold` | src/supervisor/mod.rs:1180-1196 | a failed spawn moves the row on by its own stopped event, adds no child, and tells the client |
| `Promises.SpawnIsAnnounced` | src/supervisor/mod.rs:332-368 | a spawn is announced with the service's wave, the definition's type and dependencies, the pid, and whether it is probed |
| `Promises.BuildIsAnnounced` | src/supervisor/mod.rs:1067-1118 | a build is announced with the service's place in the stack, or its client told there is no runtime for it |
| `Promises.ShutdownIsTold` | src/supervisor/mod.rs:792-805 | a command in flight at a shutdown is dropped, its client told so, its probe aborted |
| `Agreement.StepAgrees` | src/state.rs:210-345 | every step before teardown keeps each row in agreement with the kernel's children and tasks |
| `Births.StepBorn` | src/supervisor/mod.rs:332-368 | every step before teardown keeps each held instance the subject of its service's last start event, with no stop announced since |
| `Agreement.EndAgrees` | src/supervisor/mod.rs:1105-1113 | a stop or build announces its end before it reports it, so the row is right before the kernel moves on |
| `Agreement.ReadyAgrees` | src/supervisor/mod.rs:1657-1661 | a probe passing, even one long abandoned, changes nothing in a row but its readiness |
| `Custody.StepCustody` | src/supervisor/mod.rs:1124-1159 | every instance stays in exactly one place, the children or one stop task, with its begin and finish calls counted |
| `Custody.AllStopsOver` | src/supervisor/mod.rs:792-805 | with no command left every stop task has begun and finished its instance |
| `Custody.NoOrphan` | src/supervisor/mod.rs:736-757 | at teardown every instance ever spawned has one begin and then one finish, but the child left alone, the one whose exit or failed wait was taken |
| `Answers.StepServes` | src/supervisor/msg.rs:66-71 | every step keeps each client in exactly one place: queued, owed an answer, or answered |
| `Answers.AnsweredOnce` | src/supervisor/mod.rs:119-138 | a client is answered once when its command is over, and not before |
| `Verdicts.StepTruthful` | src/supervisor/mod.rs:807-844 | every step keeps every Ok answer backed by the journal and every command's finished phases behind it |
| `Verdicts.RestartInOrder` | src/supervisor/mod.rs:936-948 | an Ok restart of something that ran: its build if asked for, then the old instance's end, then its own spawn |
| `Verdicts.StoppedIsGone` | src/supervisor/mod.rs:1121-1129 | an instance that finished stopping is never among the children again |
| `Quiescence.StepLowers` | src/supervisor/mod.rs:1022-1062 | every step but a new command or a log line strictly lowers the measure |
| `Quiescence.TalkRaises` | src/supervisor/mod.rs:857-902 | a new command raises it by a fixed amount, a log line not at all |
| `Quiescence.BoundedWork` | src/supervisor/mod.rs:705-758 | however scheduled, the kernel and its tasks make only as many moves as the work at hand and the commands sent pay for |
| `Quiescence.RestIsQuiet` | src/supervisor/mod.rs:807-844 | when none of them can move no command is in flight and every client has its one answer |
| `Runs.EntrySound` | src/supervisor/mod.rs:689-699 | the state the loop is entered in meets every invariant |
| `Runs.RunSound` | src/supervisor/mod.rs:705-758 | so does every reachable state, under any interleaving |
| `Runs.PsTellsTheTruth` | src/state.rs:210-345 | one row per long-running service: running iff the kernel holds it, with its pid; stopping only while a stop task has its instance; building only while nothing of it runs and its build is out; restarts are starts less one; a held service's row reads passed iff a `ServiceReady` followed the start event of the instance held, else awaited iff that instance's definition binds a probe |
| `Runs.HeldRowsTell` | src/state.rs:283-287 | the same of held services up to the teardown, on the way down too |
| `Readiness.WhoseProbe` | src/supervisor/mod.rs:1640-1661 | over any run: what startup handed over reads ready as it did then; what a command spawned reads ready iff since that spawn its own probe passed, or that of an earlier command of the same service did |
| `LateProbe.ReadyTooSoon` | src/supervisor/mod.rs:876-902 | from any entry state and for any probed service, a run after which its row reads ready and its own probe has not passed |
| `Runs.OkMeansDone` | src/supervisor/mod.rs:1043-1059 | over any run an Ok means the command's phases were carried out in order, and its probe passed unless the request said not to wait for it |
| `Runs.RunsAreShort` | src/supervisor/mod.rs:1022-1062 | a run with n commands has at most 20 n + 2 moves of the kernel and its tasks |
| `Runs.RestMeansAnswered` | src/supervisor/mod.rs:807-844 | at rest nothing is in flight and every client that ever sent a command has one answer |
| `Runs.ReturnMeansAnswered` | src/supervisor/mod.rs:792-805 | every command the kernel took has been answered exactly once when `steady_state` returns |
| `Runs.NothingIsLeftRunning` | src/supervisor/mod.rs:736-757 | every instance of a run, those startup handed over and every later one, was begun once and then finished once, but the child left alone |
| `Runs.NothingStartsOnTheWayDown` | src/supervisor/mod.rs:736-757 | once a shutdown or exit is taken nothing is spawned and the children stay as they are |
| `Runs.WayDownIsOpen` | src/supervisor/mod.rs:792-805 | once it is going down there is always something the kernel or one of its tasks can do |
| `Runs.ShutdownCompletes` | src/supervisor/mod.rs:736-757 | so a run on its way down in which nothing is left to do has returned |
| `Runs.DependentsGoFirst` | src/supervisor/mod.rs:1685-1711 | after any run, a child that depends on another, directly or through others, has finished before the other is begun |
| `Runs.EditedDependentsGoFirst` | src/supervisor/mod.rs:972-1005 | the same for the definition a child now runs from, however its config was edited between restarts, because a changed dependency set is refused |
| `Descent.RunTraced` | src/supervisor/mod.rs:736-757 | the child left alone goes back to the one exit taken, and its exit is on the bus iff it had a status |
| `Descent.ShutdownTells` | src/supervisor/mod.rs:1708-1721 | exactly the children taken down are announced as gone, with the status they went with, or as killed if they had to be |
| `Descent.AllAccountedUnlessWaitFailed` | src/supervisor/mod.rs:736-787 | over returned runs: every instance ever spawned was stopped once or announced as exited iff no wait failed |
| `Descent.AbandonedWhenWaitFails` | src/supervisor/mod.rs:780-783 | after a failed wait some instance was never told to stop and never announced |
| `Descent.FailedWaitLeavesItUp` | src/supervisor/mod.rs:745-757 | from any entry state and for any child, the two-step run that leaves it up with its row reading running |
| `Descent.WayDownIsBounded` | src/supervisor/mod.rs:792-805 | from the moment a run goes down, the moves left are bounded by what is in flight, whatever clients send |
| `Descent.EveryShutdownCompletes` | src/supervisor/mod.rs:736-757 | so every shutdown completes: one move is always possible until the return, and after the bounded number it has returned |
| `LastRows.PsOnTheWayDown` | src/state.rs:210-345 | while the stack goes down every row stays as true as it was, and a departed child's row says how it went |
| `LastRows.PsAtTheEnd` | src/state.rs:337-342 | at the end every long-running row reads stopped or exited, but that of a child whose wait failed |
| `LastRows.PsTellsHowItWent` | src/supervisor/mod.rs:1708-1721 | after any run the row of each instance taken down with the stack reads exited with the status it went with, or killed |
| `Gating.BarrierGates` | src/supervisor/mod.rs:547-651 | the barrier between waves implies that nothing starts before every transitive dependency has cleared |
| `Gating.Collapsed` | src/supervisor/mod.rs:1685-1725 | a shutdown during startup stops every long-running instance once, but the one found gone |
| `Gating.HandsOver` | src/supervisor/mod.rs:689-699 | startup's children, events and handles make a valid entry into the steady state |
| `Boot.Starter.ValidateServices` | src/supervisor/mod.rs:374-382 | passes iff every service's runtime exists and accepts it |
| `Boot.Starter.ResolveProbes` | src/supervisor/mod.rs:291-328 | fails iff some `ready:` block of a long-running service is refused; otherwise exactly the long-running services whose `ready:` block binds a probe |
| `Boot.Starter.RunBuilds` | src/supervisor/mod.rs:423-452 | with builds starting and ending in any order, each planned service ends with one seeded row and no other service has any |
| `Boot.Starter.BuildAll` | src/supervisor/mod.rs:396-485 | done iff skipped or all builds succeeded in time; cut iff a shutdown was asked for; the failure recorded otherwise |
| `Boot.Starter.Spawn` | src/supervisor/mod.rs:332-368 | a failed spawn leaves no trace, a successful one an event and an instance of that definition |
| `Boot.Starter.SpawnWave` | src/supervisor/mod.rs:551-564 | a wave is spawned whole and sorted into oneshots and probes, or startup stops at a failed spawn with everything earlier up |
| `Boot.Starter.AwaitOneshots` | src/supervisor/mod.rs:566-624 | all oneshots succeeded, or everything long-running is taken down, and the failure, if it was one, was recorded before that and names a service whose end was reported as failed |
| `Boot.Starter.AwaitProbes` | src/supervisor/mod.rs:626-650 | all probes passed, or the same |
| `Boot.Starter.ExitedDuringStartup` | src/supervisor/mod.rs:500-522 | none iff every child is still there, otherwise the first one gone; every one gone is reported |
| `Boot.Starter.Run` | src/supervisor/mod.rs:524-700 | nothing starts before its transitive dependencies cleared; the builds latch is set iff the build stage completed; Ready is recorded iff every spawn, oneshot, probe and the final sweep was good; each way out has its exact state, and the good one is an entry into the steady state; something is left up only if a failed spawn with nothing wrong in shallower waves has a long-running service no deeper than it, and certainly if it has one shallower |
| `Boot.Starter.Up` | src/supervisor/mod.rs:275-283 | whatever happened there is a verdict: Ready iff all was well, Failed otherwise, naming the service that broke if one did, and the latches are written in an order waiters can rely on |
| `Boot.Starter.ComeUp` | src/supervisor/mod.rs:545-664 | an unsuccessful startup leaves a long-running instance up iff, by the waves and the world alone, a spawn is the first thing to go wrong and a long-running service is ahead of it |
| `Boot.Starter.FailsOnce` | src/supervisor/mod.rs:547-564 | there is at most one place where a spawn is the first thing to go wrong |
| `Boot.Starter.WhatIsLeftUp` | src/supervisor/mod.rs:551-664 | the journal of an unsuccessful startup is closed, every long-running instance stopped once, iff nothing was left up |
| `Boot.SpawnFailureStrands` | src/supervisor/mod.rs:554 | a two-service stack for which it does |
| `Boot.Starter.AllWellIsSteady` | src/supervisor/mod.rs:666-699 | when all is well and some service is long-running, startup goes on to the steady state |
| `Boot.BothComeUp` | src/supervisor/mod.rs:524-700 | the same two services when both can be spawned: the entry state is reached |
| `Boot.Launch` | src/supervisor/mod.rs:689-699 | the kernel object created after a good startup is in an entry state |
| `Fanout.EachEventIsAccountedFor` | src/sink/mod.rs:26-41 | every event before the cursor was written to the sink in its place, or lies in a gap the sink was told of |
| `Fanout.TilesAddUp` | src/sink/mod.rs:26-41 | delivered plus reported-dropped equals the cursor |
| `Fanout.NothingDroppedIsVerbatim` | src/sink/mod.rs:26-41 | a sink that was told of no gap was told the stream itself, event by event |
| `Fanout.Bus.Send` | src/event.rs:144-149 | the channel keeps the last `capacity` events |
| `Fanout.Feed.Receive` | src/sink/mod.rs:26-41 | at most `capacity` behind, every sink gets the next event and the cursor moves by one; further behind, every sink is told exactly how many are gone and the cursor stands at the oldest kept; a sink has missed something iff the feed was once more than `capacity` behind |
| `Fanout.Drain` | src/event.rs:163-175 | a drain that returns before its deadline means everything sent before the call was delivered or counted as dropped, whatever is emitted meanwhile, and delivered verbatim if the feed was never more than `capacity` behind; one that gives up has used every sleep |
| `Fnv.Fnv1a64` | src/ipc.rs:99-106 | the loop computes the fold of exclusive or and wrapping multiplication |
| `Fnv.Vectors` | src/ipc.rs:99-106 | the published values for the empty string and for "a", which fix the offset, the prime and the order of the two steps |
| `Fnv.ScaleIsInjective` | src/ipc.rs:103 | multiplying by the prime modulo 2^64 loses nothing |
| `Fnv.XorCancels` | src/ipc.rs:102 | exclusive or loses nothing in either argument |
| `Fnv.FoldIsInjective` | src/ipc.rs:101-104 | different states stay different through the same bytes |
| `Fnv.OneByteApartNeverCollide` | src/ipc.rs:99-106 | inputs of equal length that differ in exactly one byte never collide |

## Left out

- Process, signal, job-object and Docker mechanics: spawn may fail, an instance may exit at any time, `finish_stop` returns with it gone.
- Sockets, pidfiles, endpoint selection, the wire format, detaching, the command line, and rendering by console and file sinks.
- YAML loading: a reload reads an arbitrary set of definitions, or fails.
- The lifecycle docs' `run`, crash-restart policy, watch mode and `--cascade`: the code does not have them.
- Wall-clock time: probe, oneshot, build and drain deadlines are outcomes; heartbeats, tails and the text of log lines are chatter or absent.
- Interleavings inside the handling of one message: the kernel awaits a spawn in the middle of it, and another task's event may fall between its own. Each row depends on its own service's events only.
- The `u64` command number, and the event counters, are unbounded numbers.
- The order in which two unknown dependencies, or two rejected services, are found: iteration over a hash map is a free choice.
- Tracker lag: a tracker that missed events shows a stale row until the next one, and the agreement is about a tracker that applied every event.
- Readiness of a row nothing is held for: an aborted probe may still announce itself, so a stopped row can read ready; `History.ReadyColumn` says when.
- Desired state of a stopped row: a start that fails to spawn leaves it at up; agreement fixes it while the service runs.
- Which instances a failed or interrupted wave's oneshots are: they are never told to stop, and whether they have ended is not modelled.
- Supervisor.Steady.SettleCommand: one turn of the drain loop; the loop itself is any sequence of such turns with other steps between, as tasks go on while one is awaited.
- Supervisor.Steady.HandleMessage: asks that commands in flight are for known services, which the invariant provides; the program indexes its config and would panic.
- Fanout.Bus.Send: a full channel drops the oldest event at once; rounding the capacity to a power of two is left to the constructor's argument.
- Boot.Starter.BuildAll: the order builds are started in is free, where the program starts them sorted by name.
