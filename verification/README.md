# devup: process supervision, on-demand proxies and logs in Dafny

A Dafny 4.11 model of the parts of devup that are hard to get right, with proofs over all their inputs
and runs. `dafny verify dfyconfig.toml` checks the whole project.

## What is modelled

**The process supervisor.** `Supervision.dfy` is a step machine. One event is one atomic segment
between two awaits of `Spawner`, `Restarter`, `Lifecycle`, `HealthPoller`, `startService` or
`ProcessManager`, or one thing the world does: a child exits, prints a line, a timer comes due, a user
asks. What the world answers (is the port free, did the pre-build pass, did the spawn work) is a
parameter of the event, so a sequence of events is one possible run and every theorem about sequences
is a theorem about all interleavings. State objects and child processes have identity, as in the
program, where many guards compare references. A child records what was done with it (stopped,
counted as a crash, requeued), which is what the safety theorems speak about.

`ProcessManager.dfy` is the same supervisor as it is written: state objects and child processes are
objects, one registry is shared, and each method updates them step by step. `SegmentOrder.dfy` takes
the larger segments apart into the writes they are made of. `ManagerRuns.dfy` closes the circle: any
event, and any run, leaves the objects exactly as the step machine says (`Perform`, `PerformAll`), and
what is proved about the machine is stated once more on the objects (`Live`, `LiveAndCleanUp`).

On top of it: `SupervisionInvariants.dfy` (what every step keeps), `SupervisionHistory.dfy` (what only
ever moves one way), `SupervisionSafety.dfy` (shutdown, stopped processes, starts and removals),
`RestartAdvertising.dfy` (who may bring a service up next, and what `classify` may conclude),
`RestartBudget.dfy` (backoff and its bounds), `CrashCounting.dfy` (the crash counter and
`crashedDuring`), `Readiness.dfy` (ready patterns, startup windows, failing probes), `ProbeStreaks.dfy`
(whose failures a service goes down on), `Provenance.dfy` (where whatever appears under a name came
from).

And what it all achieves: `StartOutcomes.dfy` (when a start spawns, and that it comes up),
`ExitOutcomes.dfy` (what an exit leaves, and that a crash comes back), `CallOutcomes.dfy` (starts,
restarts, cancels, removals and the shutdown as their callers see them), `Displays.dfy` (one table of
what every event makes every row show), `HealthOutcomes.dfy` (what clients are told, and when a service
is probed) and `StepSources.dfy` (who is sent which signal, and what every other step leaves alone).
"When all is well" in these theorems means: the answers that a start waits for are good.

**Switching between a local process and an environment.** `Switching.dfy` adds the proxies, the
switches under way and what the operating system knows about ports. A switch runs in segments: it is
called and releases, the port is polled, and then the next owner registers. Nothing guards a
registration, as in the program; the answer of an earlier poll is all a switch goes by, so the order of
the releases is what the theorems rest on. `SwitchClaims.dfy` holds what every step keeps,
`SwitchSafety.dfy` what a switch promises over whole runs, `AfterSwitch.dfy` what the old process and
later starts can still do, `SwitchOutcomes.dfy` what a switch achieves, and `Switcher.dfy` is the code on
the live objects. `Scenarios.dfy` has runs
from rest that show what the exact conditions shut out, `SwitchScenarios.dfy` one there and back.

The theorems on whole runs speak of callers that take turns (`Orderly`): while a switch of a service is
under way nobody else starts, restarts, removes or switches it, no switch is called while a start of it
is in flight, it is registered anew only when nothing of it is left, and nobody starts it on the configured
port behind its own lazy proxy. Stops, cancels and idle stops may come at any time, and a switch may be
called while a probe or an on-demand start of the service is under way. Of the world they
take that a poll's yes is true when it is given, and that a process told to stop does not begin to
listen afterwards; it may go on listening for as long as it lives.

**The on-demand proxy.** `OnDemand.dfy`, `OnDemandSafety.dfy` (what every callback keeps),
`OnDemandOutcomes.dfy` (what becomes of every connection, and of the service) and the class in `LazyProxy.dfy`.

**The log path.** `LineBuffer.dfy`, `LogSink.dfy` and `LogReader.dfy`; `LogPath.dfy` joins sink and
reader: what a window reads back is the end of an append-only list of everything written.

**Self-contained algorithms.** `Quoting.dfy` (arguments through cmd.exe), `ProcessTree.dfy` (sums over
possibly cyclic parent links) and `Ports.dfy` (validation and the ports a run holds).

## Conventions

A child's exit and its `close` event are one step. A start that settles, and the promise continuations
that run with it, belong to the segment that ends the start. A child number stands for its pid.
The health poller runs in the daemon and in the TUI (`src/orchestrator/daemon.ts:282`,
`src/tui/hooks/useProcessManager.ts:121`), never beside a `--once` boot.
Timers of the supervisor fire at or after they are due; those of the on-demand proxy fire when due,
because there the exact time is the point.

## Where the code falls short

Each of these is a lemma with the exact condition, or with a concrete run; most have both.

- Two live processes of one name that both crash leave a timer that nothing can cancel, and it brings a
  removed service back (`LostTimerResurrects`, `TimersSurvivingRemoval`). When callers take turns it
  cannot happen (`RemovalLeavesNoTimer`).
- A `cancel` under an auto-restart in flight makes `classify` say failed while that restart may still
  spawn (`CancelHidesRestart`; the run is `CancelledRestartStillSpawns`).
- After a switch to an environment what was begun before can still write over the row: the ready line of a
  draining process, the late report of a failed spawn, an armed startup timer, the answer of a probe under
  way, the end of an on-demand start (`QuietExactlyWhenSpent`, at the commit of any orderly run
  `QuietAtCommitExactlyWhenSpent`; runs are `StartupTimerDisturbsRemote`, `ProbeAnswerDisturbsRemote` and
  `WakeDisturbsRemote`).
- A switch that times out leaves the row on its old place though its proxy is gone
  (`FailedSwitchLeavesMarker`): a service that was to leave an environment is then shown as served from it,
  and asking for that environment again is answered with yes at once (`AskedAgainAfterFailure`).
- Without rotation at the start the log sink forgets the size of the file it appends to
  (`StartSizeForgotten`).
- A line logged between the two reads of a window and the rotation makes the window repeat lines, unless
  the lines already read fill it (`RotationExactly`; the smallest input is `LateLineIsNotSeamless`). A
  line of the rotated file stamped at the very start of the window is missed
  (`SkippingPrevLosesNothing`).
- The failure count of the health poller belongs to the name, so a respawned process inherits it and may
  go down on its first failure; it goes down on failures of its own only exactly when nothing was counted
  at its start, or one failure is enough, or only a successful probe, which drops the count, can bring it up
  (`OwnFailuresExactlyWhenFresh`; the run is `RespawnInheritsStreak`).
- A `--once` boot calls an API with a ready pattern up on its port alone, inside the window that otherwise
  belongs to the pattern (`UpInItsWindow`). A web it calls up inside that window only on the word of a
  process that has been replaced since (`WebNeedsAWord`; the run is `ReportedOnPredecessorsWord`).

## Model

| member | source | states |
|---|---|---|
| SupervisionInvariants.StepKeeps | src/process/spawner.ts:78-94 | Every atomic segment and every outside event keeps the invariant: a state object and the one child spawned with it know each other, `procs` is exactly the children not exited, every start in flight is the one `starting` holds for its name, an armed startup timer is the one held for its owner, a child that was stopped is never counted or requeued and its state object says so while it lives |
| SupervisionInvariants.ReachableInv | src/process/manager.ts:16-32 | The invariant holds in every state that any run of a new manager reaches |
| SupervisionHistory.StepAges | src/process/spawner.ts:181-188 | One step never forgets a child or a signal, never unsettles a start, lets no start overtaken by a removal spawn, only counts removals up, and adds no child once `closing` is set |
| SupervisionHistory.RunAges | src/process/spawner.ts:181-188 | The same over whole runs |
| SupervisionSafety.ShutdownIsFinal | src/process/manager.ts:147-156 | After `cleanup` in any reachable state and any run: the manager stays closed, no process is added, whatever lives was in the list `cleanup` took and has SIGTERM, and SIGKILL once its grace period is over |
| SupervisionSafety.GraceEnds | src/process/lifecycle.ts:82-93 | When the deadline is reached the SIGKILL round can run and leaves no listed process alive and unkilled |
| SupervisionSafety.StoppedNeverCrashes | src/process/lifecycle.ts:28-46 | A live process that `stop`, `forceStop` or `remove` acted on is never counted as a crash and never requeued in any later run, and its exit, whenever it comes, changes no counter and no timer |
| SupervisionSafety.RemovedNeverRequeues | src/process/manager.ts:106-114 | Whatever process a removed entry still had never re-enters the restarter through its exit |
| SupervisionSafety.OneStartPerName | src/process/spawner.ts:72-94 | In every reachable state two starts in flight under one name are the same start |
| SupervisionSafety.LaterCallersJoin | src/process/spawner.ts:80-86 | A `start` while one of the name is in flight changes nothing at all |
| SupervisionSafety.GenerationsBounded | src/process/spawner.ts:122-127 | No start has captured more removals than there have been |
| SupervisionSafety.RemovalWins | src/process/spawner.ts:181-184 | A start in flight when its registered name is removed never spawns, whatever follows |
| SupervisionSafety.TimersSurvivingRemoval | src/process/manager.ts:106-114 | A restart timer of a removed name stays armed if and only if it is not the one filed under the name |
| SupervisionSafety.AfterDoubleCrash | src/process/restarter.ts:66-76 | Two live processes of one name that crash one after the other leave two armed timers of which only the second is filed |
| SupervisionSafety.LostTimerResurrects | src/process/restarter.ts:66-76 | The unfiled timer of that run outlives the removal, and when it fires it spawns and re-registers the removed service |
| RestartAdvertising.StepKeepsOneHand | src/process/restarter.ts:55-109 | As long as callers of a name take turns, every step keeps: at most one of a queued timer, a start in flight, an open explicit request and a live process whose exit counts; every timer of the name is filed; no process runs under a queued or in-flight restart. If moreover nobody stops, cancels or removes under an auto-restart in flight, the row of such a restart carries its mark |
| RestartAdvertising.RunKeepsOneHand | src/process/restarter.ts:55-109 | The same, mark included, over whole runs in which callers take turns and nobody takes the mark of a restart in flight |
| RestartAdvertising.FailedMeansNothingQueued | src/control-plane/wait.ts:95-121 | With at most one party in hand, a row that `classify` calls failed has no timer armed and no auto-restart in flight |
| RestartAdvertising.FailedIsFinal | src/control-plane/wait.ts:95-121 | In any run where one explicit start or restart of the name is under way at a time and no cancel or removal comes under an auto-restart in flight (the name may be removed and registered anew otherwise), `classify` says failed only when no auto-restart is queued or can still spawn |
| RestartAdvertising.CancelHidesRestart | src/process/restarter.ts:88-109 | Right after `cancel` a crashed row reads failed, and that is right if and only if no auto-restart was in flight |
| Scenarios.CancelledRestartStillSpawns | src/process/restarter.ts:88-109 | A run from rest (start, crash, restart timer, cancel) after which `classify` says failed and the restart still spawns |
| RestartAdvertising.RemovalLeavesNoTimer | src/process/manager.ts:106-114 | When callers take turns, whatever they stop or cancel, the removal of a name leaves no restart timer of it |
| RestartBudget.RestartsNeverExceedBudget | src/process/restarter.ts:55-60 | `restarts` of no state object ever exceeds MAX_RESTARTS, in any run |
| RestartBudget.BackoffDoubles | src/process/restarter.ts:60-78 | In any run, an exit that arms a timer uses restart k of the budget, waits BASE * 2^(k-1) ms, and publishes that moment on the row |
| RestartBudget.StepMoves | src/process/spawner.ts:197-212 | One step of an unattended service is steady, or spawns the one process a queued start was for, or queues the next restart at its backoff |
| RestartBudget.UnattendedRunInBudget | src/process/restarter.ts:55-80 | Over an unattended run the backoff queued in all is BASE * (2^after - 2^before) in terms of `restarts`, and spawns stay within the budget |
| RestartBudget.UnattendedIsBounded | src/process/internals.ts:60-61 | A service started by hand once and then left alone is spawned at most MAX_RESTARTS + 1 times, waits at most BASE * (2^MAX_RESTARTS - 1) ms in all, and once every restart is used nothing is queued |
| CrashCounting.StepCounts | src/process/spawner.ts:336-388 | For a name not reloaded, a step adds one to `crashes` exactly when it is a failing exit of the entry's own process or a start failing before there was one, and the row turns crashed only then |
| CrashCounting.RunCounts | src/process/spawner.ts:197-212 | Over any run without a reload `crashes` has grown by exactly the number of crash steps, across respawns and manual starts |
| CrashCounting.CrashedDuring | src/orchestrator/exec.ts:158-167 | The loop reports, in order, exactly the services present in both photographs whose counter rose or that turned crashed |
| CrashCounting.ReportsExactlyCrashes | src/orchestrator/exec.ts:139-167 | With no reload in the window a service is reported if and only if at least one step of the window is a crash of it |
| Readiness.StepReadiness | src/process/health-poller.ts:77-107 | What one step can do to readiness: an announcing row goes up only by its own matching line or by a probe after its own timeout, times out only by its own timer, and a timer goes only as its owner or a later start of the name decides |
| Readiness.ReadyOnlyByItsOwnWord | src/process/health-poller.ts:79-98 | An always-on service with a ready pattern that is not up becomes up in a run only if that very process printed a matching line, its own startup window ended, or a `--once` boot reported it |
| Readiness.UpInItsWindow | src/orchestrator/once.ts:262-269 | In its own window an announcing service that nobody wakes or switches comes up in a step if and only if it is its own matching line or the report of a `--once` boot that found the name ready |
| Readiness.WebNeedsAWord | src/orchestrator/once.ts:322-341 | From its spawn on a web with a ready pattern that nobody wakes or switches comes up only after its own matching line or the end of its own window, or because a `--once` boot says of it what it had found of a process that this one replaced; its port alone never does it |
| Scenarios.ReportedOnPredecessorsWord | src/orchestrator/once.ts:256-269 | A run from rest (ready line, found ready, crash, respawn, report) in which a web is called up on the word of the process that has crashed since |
| Readiness.NoPredecessorDisarms | src/process/spawner.ts:246-265 | A startup timer is never disarmed or consumed by another process of the name, only by its own process, its own expiry, or a later start |
| Readiness.WindowOpensAtSpawn | src/process/spawner.ts:234-256 | A startup timer is armed only with the process it belongs to, due its timeout after the spawn |
| Readiness.WindowNeverMoves | src/process/spawner.ts:246-256 | Once armed a deadline never moves, and once gone it never comes back |
| Readiness.CountIsStreak | src/process/health-poller.ts:77-101 | In any run the failure count of a name is the number of failures at the end of its probe answers since the streak was last dropped |
| Readiness.StreakEndsLog | src/process/health-poller.ts:99-102 | A streak of k means that the last k answers all failed |
| Readiness.DownNeedsStreak | src/process/health-poller.ts:99-106 | A probe takes a service from up only when the last `failureThreshold` answers for the name, this one included, are all failures |
| ProbeStreaks.OwnFailuresExactlyWhenFresh | src/process/health-poller.ts:77-107 | A process just spawned is, in every run of the poller, taken from up only after `failureThreshold` failures in a row of its own probes if and only if no failure of an earlier process of the name was still counted, or one failure is enough, or only a successful probe can bring it up: no ready pattern, and not behind an on-demand proxy |
| ProbeStreaks.CountIsThereBefore | src/process/spawner.ts:197-212 | The count that decides can be read before the start: no start of a name touches a failure count |
| Scenarios.RespawnInheritsStreak | src/process/health-poller.ts:99-106 | A run from rest (up, one failed probe, crash, respawn) after which the new process may be taken down early |
| Provenance.StepComesFrom | src/process/spawner.ts:197-212 | Whatever appears under a name in one step has a source in the event: a process, start, timer, request or environment of the name is an old one or comes from a configuration that the event itself starts, queues, asks for or moves |
| SwitchClaims.StackStepKeeps | src/remote/switch.ts:39-42 | As long as the callers of a service take turns, every step of the stack keeps: one hand at most, none while it is served remotely or a switch of it waits, none on the configured port behind a lazy proxy, one proxy at most, and a switch once told that the port is free still finds no process of the service on it |
| SwitchSafety.OneClaimAtATime | src/remote/switch.ts:39-42 | In every run in which the callers take turns, at every step, at most one of lazy proxy, remote proxy, live process nobody stopped, start in flight and queued restart claims the configured port; no registration is guarded, and stops, cancels, idle stops, wakes and removals may come at any time outside a switch |
| SwitchSafety.CallChangesNothingExactly | src/remote/switch.ts:43-84 | Without a switch of the name under way, a call changes nothing that can be observed (services, proxies, sockets, who waits) if and only if it is refused or already there |
| SwitchSafety.CallReleasesEverything | src/remote/switch.ts:86-92 | When a call begins to wait every claim on the configured port is gone, no start, timer or request of the service is left, and every live process of it has been told to stop |
| SwitchSafety.CommitTakesThePort | src/remote/switch.ts:94-142 | At the commit to an environment every live process of the service has been told to stop and none listens on the port, no lazy proxy, start, queued restart or request is left, and the remote proxy is the one claim; it stays so, on the same row and with nothing spawned, in any orderly run until the service is called back or removed |
| SwitchSafety.FailedSwitchLeavesMarker | src/remote/switch.ts:89-96 | A switch whose port is still held at the deadline, by whoever it is, after any orderly run in between: no proxy, process, start, timer or request of the service is left, and its row still says where it was before the call |
| SwitchSafety.QuietAtCommitExactlyWhenSpent | src/remote/switch.ts:121-142 | At the commit of any orderly run the row is safe for good from what was begun before if and only if all of it is spent, in the sense of `QuietExactlyWhenSpent` |
| SwitchSafety.StackRunIsRun | src/remote/switch.ts:43-61 | Every run of the stack is a run of the supervisor, so what is proved of all its runs holds here |
| Scenarios.StartupTimerDisturbsRemote | src/process/spawner.ts:246-254 | An orderly run from rest, through call, poll and commit, after which the startup timer of the old process times the row of the environment out |
| Scenarios.ProbeAnswerDisturbsRemote | src/process/health-poller.ts:69-98 | Such a run after which, with the old process spent and no startup timer, the answer of a probe begun before the switch calls the environment up |
| Scenarios.WakeDisturbsRemote | src/process/boot.ts:161-175 | Such a run of a service switched while it is being woken: the end of the wake times the row of the environment out |
| AfterSwitch.QuietExactlyWhenSpent | src/remote/switch.ts:121-142 | After a switch to an environment the row shows, through any late events, exactly what the environment's own probe says, if and only if all that was begun before is spent: the old process has exited, or was spawned, told to stop and has no ready pattern; no startup timer of the row is armed; no probe of it is under way that could change it; and no on-demand start of it is under way |
| AfterSwitch.SpentStaysQuiet | src/process/health-poller.ts:69-107 | The if half, over any run of output, exits, timers, probe answers, ends of on-demand starts and the environment's probes |
| AfterSwitch.StepKeepsRemote | src/process/spawner.ts:98-120 | One step keeps a remote name remote on the same row and spawns no process of it |
| AfterSwitch.RemoteIsNeverSpawned | src/process/spawner.ts:98-120 | While a name is served remotely and none of its starts was in flight, no run without taking it back spawns it or replaces its row |
| StartOutcomes.StartEndsExactly | src/process/spawner.ts:129-225 | In any run, the answer of the port or of the pre-build ends a start in flight with a process if and only if the port is the service's for the taking (or the pre-build passed), the watch paths exist, nobody removed the service since the call and the manager is not closing; then exactly one process is added, with the start's configuration, listed and unsignalled, the registered row describes it as starting with the counters of the row before, its startup window is the only one of the name, and the start settles as spawned of it. It ends with one more crash on a new row if and only if the port is somebody else's, the pre-build failed or a watch path is missing; otherwise it adds nothing and writes no row |
| StartOutcomes.StartComesUp | src/process/spawner.ts:129-225 | From any reachable state with a start in flight that nobody overtook: when the answers it still waits for are good it comes up, from whichever segment and with or without a pre-build, with exactly one process |
| StartOutcomes.EveryStartSettles | src/process/spawner.ts:84-94 | Whatever the answers are, once everything a start waits for has happened it is over |
| StartOutcomes.CallBegins | src/process/spawner.ts:96-171 | A call with no start of the name in flight is refused at once only by shutdown or an environment; otherwise an API waits for its port, a service with a pre-build for that, and any other ends as its guards decide |
| StartOutcomes.CallJoins | src/process/restarter.ts:66-75 | A call while a start of the name is in flight begins no second one, and one of the restarter marks that start so that the advertised restart ends with it |
| StartOutcomes.CallComesUp | src/process/spawner.ts:96-225 | Any call that may begin a start comes up when all is well, and a restart even if its port is not free |
| StartOutcomes.WaitEndsExactly | src/process/spawner.ts:146-150 | A start that waits for a process to go goes back to the port when that process has gone or at its deadline, and not before |
| ExitOutcomes.EveryExitIsRead | src/process/spawner.ts:336-388 | In any run, what an exit leaves: crashed with one crash more if the process never came to life or failed, stopped if it ended by itself, the next restart queued and advertised only for a failure with budget left; no other row, process or timer is touched, the process is off the list and no startup window of its row stays open |
| ExitOutcomes.StoppedReadsStopped | src/process/spawner.ts:355-374 | After a stop, force-stop or removal and any run, the exit of that process makes its row stopped and down if and only if the row is still registered, still holds the process and was starting, running or timed out; otherwise status and health stay; the stop mark goes, and counters and queue are untouched |
| ExitOutcomes.CrashComesBack | src/process/restarter.ts:55-80 | A failure with budget left comes back: after its backoff the queued restart adds one process of the same configuration, be its port free or not, unless somebody starts the service first, switches it away or closes the manager |
| StepSources.SignalsExactly | src/process/lifecycle.ts:28-93 | For every event and process: SIGTERM is sent if and only if the event stops, restarts, idles or removes the service whose registered live process it is, or is the shutdown that lists it; SIGKILL if and only if it is a force-stop of that service or the end of the grace period that took it |
| Displays.StepShows | src/process/health-poller.ts:33-107 | The status model as one table over all events: after any step every row shows exactly the status and health that the table gives, so every change has its cause, every cause its change, and no other row is touched |
| HealthOutcomes.VerdictIs | src/control-plane/wait.ts:95-140 | `classify` says ready if and only if the entry is up, or idle and nobody insists; failed if and only if it has crashed, is not up and advertises no restart; waiting otherwise; and never failed to a client of an older daemon |
| HealthOutcomes.TurnsReadyExactly | src/control-plane/wait.ts:95-140 | In any run, a service that is not called ready is called so after a step, its row not replaced, if and only if the step is its own ready line, an accepted probe that may speak for it, a wake or `--once` report, a reachable probe of its environment, or, for who does not insist, its being idled |
| HealthOutcomes.NotReadyWithoutAWord | src/control-plane/wait.ts:27-30 | From its spawn on a web with a ready pattern that nobody wakes or switches is never called ready before its own word or the end of its own window, but for who does not insist while it sleeps, or on a `--once` report about a row it has replaced |
| HealthOutcomes.OwnWordIsHeard | src/process/spawner.ts:267-277 | In any run the matching line of its own process makes a registered service ready for every client, at any time, and closes its startup window |
| HealthOutcomes.WindowEndStillWaits | src/control-plane/wait.ts:122-130 | In any run the end of the startup window of a service that is not up makes it timed out and down, and clients are told to wait, not that it failed |
| HealthOutcomes.ProbesBeginExactly | src/process/health-poller.ts:33-69 | Over all events a probe begins in a round only, and there if and only if the service is registered, local, running, not asleep and past its start period |
| HealthOutcomes.YoungIsNotJudged | src/process/health-poller.ts:65-68 | In any run, inside the start period of a local service no probe of it begins, no answer is written down, no failure is counted and no answer changes its row |
| CallOutcomes.AskedServiceComesUp | src/process/start-service.ts:26-67 | In any run a local service that does not run and is asked for has its queued restart cancelled and its whole budget back at once, and comes up with one process of its registered configuration when all is well |
| CallOutcomes.AskedWhileStoppingComesUp | src/process/start-service.ts:40-67 | The same while it is being stopped: the start waits for the old process, however that ends, and then comes up |
| CallOutcomes.RestartedServiceComesUp | src/process/restarter.ts:34-51 | A restart stops what runs, cancels, renews the budget, lets the old process go for 1500 ms (100 if none runs) and comes up whether or not the port is free |
| CallOutcomes.StartServiceAsks | src/process/start-service.ts:31-65 | `startService` does nothing for a service that is unknown, remote or runs unstopped, waits for one that is being stopped, and otherwise renews it and goes on |
| CallOutcomes.DrainEndsExactly | src/process/start-service.ts:44-58 | That wait ends with the start when the process has gone and the service is still there, and gives up otherwise, at its deadline at the latest |
| CallOutcomes.RequestsHandOver | src/process/start-service.ts:65-67 | An explicit start and a restart hand the spawner the configuration the row has by then, as what they are, and nothing if the service has left the registry |
| CallOutcomes.DueTimerStarts | src/process/restarter.ts:66-75 | A queued restart does nothing before its time; then it leaves the queue and begins, as a restart, a start of its configuration, or joins the one in flight, and stays advertised until that is over |
| CallOutcomes.OverAutoRestartUnmarks | src/process/restarter.ts:68-74 | In any run, when the start that a queued restart waited for is over, whatever its outcome, the row advertises none |
| CallOutcomes.StopCancels | src/process/manager.ts:79-99 | `stop` and `cancel` take the filed restart of the name and its mark, and no other timer; `forceStop` leaves the queue alone |
| CallOutcomes.RemovalFreesName | src/process/manager.ts:106-114 | After a removal nobody is registered under the name, its filed restart and its failed probes are gone and every earlier start is overtaken; a live process of it is marked as stopped; no other name is touched |
| CallOutcomes.ShutdownCancels | src/process/restarter.ts:82-86 | The shutdown cancels exactly the restarts that are filed under a name, and their marks |
| CallOutcomes.ShutdownMarks | src/process/lifecycle.ts:64-71 | The shutdown says of every registered row whose process it takes that its exit is intended |
| CallOutcomes.IdleStopSleeps | src/process/boot.ts:178-195 | A service that is idled has its restart cancelled and its process told to stop, and reads asleep; a remote one is left alone |
| CallOutcomes.RegistrationsRead | src/process/boot.ts:102-109 | A lazy service is registered asleep, a remote one as running and not heard of, both with nothing of an earlier row of the name |
| CallOutcomes.WakeBegins | src/process/boot.ts:115-132 | A wake cancels the queued restart and takes its patience from the live configuration |
| CallOutcomes.FoundReadyExactly | src/orchestrator/once.ts:322-341 | A `--once` boot finds a service ready if and only if it is up, or its port answers and it is an API, has no pattern, or its window is over |
| SwitchOutcomes.CallAnswers | src/remote/switch.ts:43-92 | An accepted call is answered at once if and only if the entry's `remote` is already what is asked for, and then nothing changes; otherwise the proxies of the name, its queued restart and, on the way out, its process are let go of and the poll begins; a call that is not accepted changes nothing |
| SwitchOutcomes.PollEndsExactly | src/remote/switch.ts:191-198 | The poll of a switch ends with a yes when the port can be bound, with a no at its deadline and not before, and polls on until then |
| SwitchOutcomes.YesMeansThere | src/remote/switch.ts:82-189 | In any orderly run, whenever a switch is answered with yes the entry's `remote` is what was asked for; back home no remote proxy is left, and unless it was there already a start of it is asked for |
| SwitchOutcomes.SwitchArrivesAway | src/remote/switch.ts:63-148 | From any state of an orderly run, a call whose port comes free arrives: answered with yes, served by the proxy of that environment and by nothing else, the row cleared of its process |
| SwitchOutcomes.SwitchArrivesHome | src/remote/switch.ts:150-189 | The same on the way home: the row is local and renewed, and when all is well one process of the configured service comes up |
| SwitchOutcomes.ThereAndBack | src/remote/switch.ts:25-42 | From any state of an orderly run in which the service is at home: there and back again, one yes after the other, ending with one new process |
| SwitchScenarios.StartedThereAndBack | src/remote/switch.ts:25-42 | That run from rest: started, switched to an environment, switched back |
| SwitchOutcomes.AskedAgainAfterFailure | src/remote/switch.ts:82-96 | After a switch away from an environment has failed in an orderly run, asking for that environment again is answered with yes at once though nothing of the service is left |
| OnDemandOutcomes.NewConnectionGoes | src/lazy/proxy.ts:162-174 | In any run, a new connection to a proxy not taken down is relayed at once if the service is ready and alive, and otherwise waits behind a start in flight; every other connection stays where it was |
| OnDemandOutcomes.NewConnectionIsServed | src/lazy/proxy.ts:162-186 | And if that start comes up it is relayed |
| OnDemandOutcomes.ClosedExactlyBecause | src/lazy/proxy.ts:98-108 | Over any run a connection is closed if and only if its client went away while it waited, its pipe ended, the start it waited for failed, or the proxy was taken down |
| OnDemandOutcomes.StepPlaces | src/lazy/proxy.ts:162-186 | After any callback every connection is in the place that a table over all callbacks gives |
| OnDemandOutcomes.StepServes | src/lazy/proxy.ts:50-160 | Over all callbacks: a start begins exactly when somebody needs one and none is in flight; the service is ready exactly from a start that came up until somebody needs another or it is idled; it is idled exactly when the timer finds it so; the timer is armed exactly after a start that did not throw and when found in use |
| SwitchService.Switcher.LeaveLocal | src/remote/switch.ts:86-92 | Queued restart, lazy proxy, remote proxy and process are released in that order |
| SwitchService.Switcher.Call | src/remote/switch.ts:43-92 | switchService up to its first look at the port does to the stack what the switch protocol says |
| SwitchService.Switcher.Answer | src/remote/switch.ts:191-198 | One answer of the poll: told that the port is free, given up at the deadline, or still waiting |
| SwitchService.Switcher.Take | src/remote/switch.ts:98-187 | With the port free: proxy registered and row committed, or row made local and the service started |
| SwitchService.Switcher.Supervise | src/process/manager.ts:106-114 | Any event of the manager, and with a removal the proxies of the name |
| SwitchService.Switcher.Perform | src/remote/switch.ts:43-198 | Any event of the stack: registries, manager and switches change exactly as the switch protocol says |
| SwitchService.Switcher.Live | src/remote/switch.ts:39-42 | Objects that live through any orderly run from rest hold at most one claim on the configured port, and a remote proxy means that the service is served by it alone |
| OnDemandSafety.StepKeeps | src/lazy/proxy.ts:36-48 | Every callback keeps: pending connections are distinct, unpiped and behind a start in flight, active ones piped once, every open one listed, one start at most, and a timer behind every ready service |
| OnDemandSafety.EveryConnectionIsSomewhere | src/lazy/proxy.ts:162-186 | In every run each accepted connection waits, is relayed or is closed, exactly one of these, and is piped at most once |
| OnDemandSafety.OneStartAtATime | src/lazy/proxy.ts:121-160 | Starts begun never exceed starts settled by more than one, and then one is in flight |
| OnDemandSafety.NobodyIsLeftWaiting | src/lazy/proxy.ts:174-185 | When a start settles the queue is empty and every connection that waited is relayed if it came up and closed if not |
| OnDemandSafety.ReadyMeansArmed | src/lazy/proxy.ts:147-152 | A ready service behind a live proxy with a timeout has its idle timer armed |
| OnDemandSafety.NoIdleStopAfterDestroy | src/lazy/proxy.ts:219-226 | After `destroy` no run stops the service for being idle |
| OnDemandSafety.SilenceStops | src/lazy/proxy.ts:54-89 | From an armed timer and an idle proxy, silence ends in exactly one idle stop at a computed time and not before |
| OnDemandSafety.IdleStopsOnceInTime | src/lazy/proxy.ts:54-89 | With q the later of last activity and start completion, period P and nothing after q, the service is idle-stopped exactly once, at a time in [q+P, q+2P) |
| LazyProxies.LazyProxy.EnsureStarted | src/lazy/proxy.ts:124-135 | ensureStarted up to its look at the port |
| LazyProxies.LazyProxy.PortChecked | src/lazy/proxy.ts:134-159 | The rest of it, once the port has answered or not |
| LazyProxies.LazyProxy.HandleConnection | src/lazy/proxy.ts:162-174 | A connection is piped at once, or queued behind a start |
| LazyProxies.LazyProxy.PipeEnds | src/lazy/proxy.ts:98-108 | Either side closing closes the connection and counts as activity |
| LazyProxies.LazyProxy.Resolve | src/lazy/proxy.ts:176-185 | The queue is taken as a whole: each connection still open is piped or destroyed |
| LazyProxies.LazyProxy.StartSettles | src/lazy/proxy.ts:137-186 | Readiness, timer, in-flight mark and queue after a start settles |
| LazyProxies.LazyProxy.IdleTimerFires | src/lazy/proxy.ts:58-88 | Re-armed while busy, recent or debugged; otherwise one idle stop |
| LazyProxies.LazyProxy.Destroy | src/lazy/proxy.ts:219-225 | Timer cleared and every waiting or relayed connection destroyed |
| LazyProxies.LazyProxy.Perform | src/lazy/proxy.ts:50-226 | Any callback: the variables change exactly as the machine says, and the invariant is kept |
| LazyProxies.LazyProxy.Live | src/lazy/proxy.ts:36-226 | A proxy object that lives through any run: each accepted connection is in exactly one place and piped at most once, at most one start is under way, a ready service has its timer armed |
| LineBuffers.PiecesAreTheStream | src/process/internals.ts:5-26 | The pieces that lines are made of hold no newline and, joined by newlines, are the stream |
| LineBuffers.PiecesGoOn | src/process/internals.ts:12-20 | Cutting the leftover with the next chunk continues the cut of the whole stream |
| LineBuffers.LineBuffer.Push | src/process/internals.ts:12-20 | After any push the lines delivered are exactly those of the finished pieces of everything seen, and the buffer is the rest |
| LineBuffers.LineBuffer.Flush | src/process/internals.ts:21-24 | After the flush the lines delivered are exactly the lines of the whole stream |
| LineBuffers.Deliver | src/process/internals.ts:5-26 | However a stream is cut into chunks, pushes and a flush deliver the lines of the whole stream |
| LineBuffers.PrintedLinesArrive | src/process/internals.ts:12-20 | What a process prints line by line, each line ended the one way or the other, is delivered as exactly those lines |
| LineBuffers.KeepLast | src/process/spawner.ts:296-308 | The rolling buffer holds the last 20 lines |
| LineBuffers.CrashLog | src/process/spawner.ts:383-384 | The crash log is the last 20 stderr lines of the process, or none |
| LogSinks.WriteKeepsCount | src/process/log-sink.ts:40-62 | A write keeps the byte counter equal to the file's size, within the limit unless the file is one entry |
| LogSinks.WriteKeepsEnd | src/process/log-sink.ts:73-103 | A write keeps the two files a contiguous end of everything written |
| LogSinks.FilesHoldTheEnd | src/process/log-sink.ts:40-103 | Through any sink `.prev` then `.log` is always a contiguous end of all ever written for the service; with start rotation the counter is the current size, and that is at most the limit or its last entry |
| LogSinks.RotationKeepsTheFile | src/process/log-sink.ts:73-86 | A write that does not fit turns the whole current file into `.prev` and starts a new one; one that fits appends |
| LogSinks.NothingAfterClose | src/process/log-sink.ts:64-71 | After `close` no write changes anything |
| LogSinks.StartSizeForgotten | src/process/log-sink.ts:92-101 | Without start rotation the counter is right after the first write if and only if the old file was empty or the entry did not fit |
| LogSinks.LogSink.RotateFile | src/process/log-sink.ts:73-86 | Stream dropped, file renamed, counter 0 |
| LogSinks.LogSink.OpenStream | src/process/log-sink.ts:92-114 | The stream is open, the file rotated if this sink sees it first |
| LogSinks.LogSink.Write | src/process/log-sink.ts:40-62 | One entry, with rotation before it when it does not fit |
| LogSinks.LogSink.Session | src/process/log-sink.ts:40-103 | A sink object that writes any notes: the two files of a service are a contiguous end of what earlier sessions left and all written now; with start rotation the counter is the current size, and that is at most the limit or its last entry |
| LogReaders.ReadOneFile | src/process/log-reader.ts:118-141 | The last N lines dated at or after `since`, undated ones dated by the line before, the oldest date, and truncated exactly when more matched |
| LogReaders.TrimOverlap | src/process/log-reader.ts:98-108 | Removes the longest end of the earlier lines that is the beginning of the later ones |
| LogReaders.ReadLogWindow | src/process/log-reader.ts:56-89 | The two reads joined without their longest overlap, capped, with truncation and oldest date |
| LogReaders.WindowIsTheLastLines | src/process/log-reader.ts:74-81 | With no seam the window is the last N of the matching lines of `.prev` then current, truncated exactly when more than N match |
| LogReaders.SkippingPrevLosesNothing | src/process/log-reader.ts:66-72 | When the current file starts at or before the window and time goes forward, nothing of `.prev` matches if and only if none of its lines is stamped exactly `since` |
| LogReaders.WindowIsComplete | src/process/log-reader.ts:56-89 | Hence, with time going forward, no seam and no such line, the window is the last N of all that matches |
| LogReaders.MatchingGrows | src/process/log-reader.ts:118-141 | What is written later leaves what matched before as it is, undated lines included |
| LogReaders.RotationExactly | src/process/log-reader.ts:91-97 | A file rotated between the two reads, for all inputs: the window is that of the file as read, each line once, if and only if that fills it or no line in the window was written in between; and it says truly whether more lines match if and only if they do not fit anyway, or what the seam leaves of them does |
| LogReaders.LateLineIsNotSeamless | src/process/log-reader.ts:91-97 | The smallest failing input: one line read, one written before the rotation, and the window repeats a line out of order and claims truncation |
| LogPath.NothingMissed | src/process/log-reader.ts:66-72 | Lines no longer retained, and those of a rotated file left unread, lie outside a window that starts after the oldest time retained |
| LogPath.WindowOverHistory | src/process/log-reader.ts:25-38 | Such a window over the two retained files is the last N matching lines of all there ever was, and says exactly when there were more |
| LogPath.WindowReadsBackWhatWasWritten | src/process/log-sink.ts:40-103 | Whatever was written through a sink, over whatever was there before: with dated lines, time going forward and no seam, a window that starts after the oldest time retained reads back the last N of all matching lines ever written for the service |
| Quoting.CaretsComeOff | src/platform/command.ts:122-123 | One caret-removing pass undoes one caret escape of any text and ends outside quotes |
| Quoting.CaretsComeOffAll | src/platform/command.ts:61 | The same for parts joined by blanks |
| Quoting.TwoPassesAreOne | src/platform/command.ts:116-121 | The two backslash rewrites together double every run before a quote or at the end, and no other |
| Quoting.BodyIsRead | src/platform/command.ts:115-122 | Inside quotes the CommandLineToArgvW rules read the rewritten text back as the argument |
| Quoting.NothingSpecialIsBare | src/platform/command.ts:115-125 | In neither of its two passes does cmd.exe see, outside quotes and without a caret, anything it gives a meaning in the escaped arguments, but for the blanks between them |
| Quoting.ArgumentsSurvive | src/platform/command.ts:61 | For every list of arguments, removing carets twice from the joined escaped arguments and splitting returns exactly that list |
| Quoting.OneRoundForOneEscape | src/platform/command.ts:116-125 | An argument escaped once comes back after one round |
| Quoting.ShimGetsItsArguments | src/platform/command.ts:61-66 | From the whole line the first round yields the shim unescaped and arguments that survive the second round and the splitting |
| ProcessTree.TotalWith | src/platform/tree.ts:39-40 | Adding a pid not counted yet adds exactly its own row |
| ProcessTree.Index | src/platform/tree.ts:20-26 | Every row is found by its pid and listed under its parent |
| ProcessTree.Push | src/platform/tree.ts:41-47 | Exactly the plausible children go on the stack |
| ProcessTree.NobodyOlderIsBelow | src/platform/tree.ts:41-47 | Along accepted parent links start times never go back, so nothing known to be older than the root is counted below it |
| ProcessTree.EveryChildIsBelow | src/platform/tree.ts:41-47 | A process whose parent link says so is counted below its parent unless it is the parent itself or known to be older |
| ProcessTree.SumTree | src/platform/tree.ts:31-49 | The walk terminates on any parent links, cycles included, and sums exactly the rows reachable through accepted links, each once |
| ProcessTree.SumProcessTrees | src/platform/tree.ts:19-52 | Every root with a row has that sum, and a root without one is absent |
| Ports.CheckNames | src/config/validator.ts:79-86 | No error if and only if names are unique |
| Ports.CheckPorts | src/config/validator.ts:88-96 | No error when ports are unique; and only then, if no name is empty |
| Ports.CheckFields | src/config/validator.ts:98-142 | No error if and only if every name is non-blank and every port an integer from 1 to 65535 |
| Ports.CheckAlwaysOn | src/config/validator.ts:241-247 | No error if and only if every always-on name is a service |
| Ports.CheckLazyPorts | src/config/validator.ts:249-275 | Given sound names and ports, no error if and only if every lazy service has a valid real port that nobody configured |
| Ports.Validate | src/config/validator.ts:67-275 | No error if and only if the configuration is sound in names, ports and lazy mode |
| Ports.ClassifyServices | src/lazy/classifier.ts:14-24 | Splits a selection into always-on and lazy, in order |
| Ports.ClassifyRemote | src/remote/classifier.ts:52-80 | Splits a selection into local, remote and unresolved for both forms of the flag |
| Ports.SplitIsApart | src/remote/classifier.ts:52-80 | Local and remote services are configured ones and have none in common |
| Ports.CleanConfigHoldsDistinctPorts | src/config/validator.ts:249-275 | If validation finds nothing, then for every local selection, remote choice and mode all ports held (always-on, lazy proxies, lazy real ports, remote proxies) are in 1..65535 and pairwise distinct |
| Ports.ScanListsEachHeldPortOnce | src/remote/classifier.ts:163-169 | The pre-boot scan lists every configured port held, each once |
| ProcessManagement.ProcessManager.Cancel | src/process/restarter.ts:88-95 | Mark and filed timer of the name are gone |
| ProcessManagement.ProcessManager.ScheduleAutoRestart | src/process/restarter.ts:55-80 | Nothing at the limit; otherwise the next restart at its backoff |
| ProcessManagement.ProcessManager.Stop | src/process/manager.ts:79-84 | The queued restart is cancelled and the process signalled |
| ProcessManagement.ProcessManager.Remove | src/process/manager.ts:106-114 | The removal, in the program's order |
| ProcessManagement.ProcessManager.ScheduleStartupTimeout | src/process/spawner.ts:234-256 | No window for a suspended service or a timeout of 0; otherwise one that ends after the timeout |
| ProcessManagement.ProcessManager.SpawnProcess | src/process/spawner.ts:190-225 | Spawn, startup window and settlement |
| ProcessManagement.ProcessManager.AfterBuild | src/process/spawner.ts:173-225 | The last guards in order: watch paths, removal, shutdown; then the spawn |
| ProcessManagement.ProcessManager.Start | src/process/spawner.ts:84-94 | Join the start in flight, or begin one |
| ProcessManagement.ProcessManager.OnPortResult | src/process/spawner.ts:130-161 | Every outcome of the port checks |
| ProcessManagement.ProcessManager.OnExitWaitOver | src/process/spawner.ts:146-150 | The port is looked at again when the old process is gone or the grace period over |
| ProcessManagement.ProcessManager.OnBuildResult | src/process/spawner.ts:164-171 | A failed pre-build is a recorded crash |
| ProcessManagement.ProcessManager.OnLine | src/process/spawner.ts:267-277 | A matching line makes the row up and disarms its own timer |
| ProcessManagement.ProcessManager.OnClose | src/process/spawner.ts:336-388 | The whole close handler: failed spawn, intended stop, clean exit, crash |
| ProcessManagement.ProcessManager.OnStartupTimer | src/process/spawner.ts:246-254 | Times out only the registered row that armed it, and only if not up |
| ProcessManagement.ProcessManager.OnRestartTimer | src/process/restarter.ts:66-75 | The queued restart becomes a start |
| ProcessManagement.ProcessManager.OnStartService | src/process/start-service.ts:26-65 | Skipped when remote or running, waiting when stopping, otherwise on its way |
| ProcessManagement.ProcessManager.OnDrainOver | src/process/start-service.ts:44-52 | Goes on when the process is gone, gives up at the deadline |
| ProcessManagement.ProcessManager.OnInstallDone | src/process/start-service.ts:65-67 | The start after the install |
| ProcessManagement.ProcessManager.OnRestartService | src/process/restarter.ts:34-46 | Cancel, stop, fresh budget, and the settle delay by liveness |
| ProcessManagement.ProcessManager.OnRestartResume | src/process/restarter.ts:46-51 | The restart after its delay, unless the service is gone |
| ProcessManagement.ProcessManager.CancelEvery | src/process/restarter.ts:82-86 | Name by name, in any order, this is cancelAll |
| ProcessManagement.ProcessManager.SignalList | src/process/lifecycle.ts:64-71 | Process by process, in any order, the whole list is signalled |
| ProcessManagement.ProcessManager.OnCleanup | src/process/manager.ts:152-156 | Close, cancel everything, signal everything, in that order |
| ProcessManagement.ProcessManager.OnGraceOver | src/process/lifecycle.ts:82-93 | Whatever of the list still lives gets SIGKILL |
| ProcessManagement.ProcessManager.OnPollBegin | src/process/health-poller.ts:33-69 | Remote rows are skipped, dead or idle ones written off, young ones left alone, others probed |
| ProcessManagement.ProcessManager.OnPollResult | src/process/health-poller.ts:69-107 | An answer for a replaced row is dropped; promotion and demotion otherwise |
| ProcessManagement.ProcessManager.IdleStop | src/process/boot.ts:178-195 | Only a row that is not remote is stopped and put to sleep |
| ProcessManagement.ProcessManager.WakeBegin | src/process/boot.ts:115-132 | The queued restart is cancelled and the wake under way with what the live configuration says |
| ProcessManagement.ProcessManager.WakeSettles | src/process/boot.ts:161-175 | The wake is over: up if reachable, timed out otherwise unless suspended |
| ProcessManagement.ProcessManager.OnceSettles | src/orchestrator/once.ts:322-341 | Found ready exactly when it meets the bar of waitReady |
| ProcessManagement.ProcessManager.OnceReports | src/orchestrator/once.ts:262-269 | What was found is written on whatever is registered by then |
| ProcessManagement.ProcessManager.RemoteProbe | src/remote/switch.ts:110-117 | Only a remote row follows its proxy's probe |
| ProcessManagement.ProcessManager.RemoteCommit | src/remote/switch.ts:121-142 | All writes of a committed switch to an environment |
| ProcessManagement.ProcessManager.LocalCommit | src/remote/switch.ts:171-176 | All writes of a committed switch back |
| ManagerRuns.Perform | src/process/manager.ts:16-32 | Any event: the objects are left as the step machine says, and only ever gain rows and children |
| ManagerRuns.PerformAll | src/process/manager.ts:16-32 | Any run of the objects is the run of the step machine |
| ManagerRuns.Live | src/process/lifecycle.ts:28-46 | After any run of a new manager `procs` is exactly the child objects not exited, and one that a stop acted on was neither counted as a crash nor requeued, and its state object says so while it lives |
| ManagerRuns.LiveAndCleanUp | src/process/manager.ts:147-156 | After any run, `cleanup` and any run: no child object was added, and whatever lives was among the processes taken and has been sent SIGTERM |

## Left out

- Side-car watch builds, the error counter, the debug port, colours, log texts and event notifications of the supervisor.
- The install step and the pre-build process itself: only whether they are over, and whether the build passed.
- A spawn error after a successful spawn, and a kill that fails.
- Rows, requests and probes in flight refer to state objects by number; only the registry, the processes and the handlers hold references.
- The phase loop of `bootStack` and the waiting loop of `waitForServices`: their writes are events, their order adds nothing to the theorems.
- Writes of a service's configuration in place: a reload (`src/orchestrator/config-watcher.ts:145`) and a change of the debugger (`src/process/debug-service.ts:54`, `:73`) put a new one into the live state object; in the model only a switch does.
- Readiness.DownNeedsStreak: speaks of the answers for the name, as the program counts them; what holds of the process itself is `ProbeStreaks.OwnFailuresExactlyWhenFresh`.
- Overlapping switches of one service, and a start of it that races a switch, also one that a wake under way comes to: the program promises its ordering for one caller at a time.
- How long a `--once` boot waits, and that it reports a phase at once: what it found is reported at some later time.
- `restartService`, `debugService` and their answers: they stop the service and then start it, which are two events here. `Restarter.restart`, an event of its own, is what `ProcessManager.restart` offers; nothing in the program calls it.
- `startService` behind an on-demand proxy ends in that proxy's `ensureStarted`; in the model it goes on to the spawner, and a wake is an event of its own.
- Sockets, HTTP forwarding and the remote proxy's own server: binding a port is an event of the operating system.
- The result that `toLocal` returns: it tests a result object for being there, so it says nothing about the start.
- Client sockets of the on-demand proxy are numbers with two facts each; back-pressure and half-closing are not modelled.
- A start that settles in the on-demand proxy is one event with everything that awaited it; the order among those connections is not observable in the model.
- Decoding bytes into characters, regular expressions, and the parsing of timestamps: characters, whether a line matches, and an optional timestamp are given.
- File names of the log sink: a service has a file of its own, and renames and appends succeed.
- `--since` parsing, and the reading of files line by line.
- Percent expansion by cmd.exe, and finding the shim on PATH.
- Floating point in CPU times: real numbers.
- Of `validateConfig` everything but names, ports and lazy mode; a blank name is one that `trim` empties.
- The TUI, the command line, the daemon and its control socket, reverse-proxy files, header and cookie rewriting.
