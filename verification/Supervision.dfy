/** The process supervisor as a step machine.
 *
 *  One `Event` is one atomic segment between two awaits of `Spawner`, `Restarter`,
 *  `Lifecycle`, `HealthPoller`, `startService` or `ProcessManager`, or one thing the
 *  outside world does: a child exits, prints a line, a timer comes due, a user asks.
 *  `Step` is total: an event that cannot happen in a state leaves it alone.  What the
 *  world answers (is the port free, did the pre-build pass, did the spawn succeed) is a
 *  parameter of the event, so a sequence of events is one possible run.
 *
 *  State objects and child processes have identity: they are positions in `rows` and
 *  `children`, and the registry `state` maps a name to the position of its state object.
 *  Settling a start, and the promise continuations that run with it, belong to the
 *  segment that ends the start. */
module Supervision {
  import opened Options

  type Name = string
  type RowId = nat
  type ChildId = nat
  type TaskId = nat
  type TimerId = nat

  const MAX_RESTARTS: nat := 3
  const BACKOFF_BASE_MS: nat := 2000
  const STOP_GRACE_MS: nat := 5000
  const RESTART_SETTLE_LIVE_MS: nat := 1500
  const RESTART_SETTLE_DEAD_MS: nat := 100

  datatype Status = Starting | Running | Stopped | Crashed | Idle | TimedOut
  datatype Health = Up | Down | Waiting | Asleep

  datatype ServiceConfig = ServiceConfig(
    name: Name,
    port: int,
    isApi: bool,
    hasPreBuild: bool,
    hasReadyPattern: bool,
    suspended: bool,          // started with --inspect-brk
    startupTimeoutMs: int,
    startPeriodMs: nat,
    failureThreshold: int)

  /** A state object.  `owned` is the child spawned together with it, whose handlers close over
   *  it for good; `proc` is what the object itself says, and a switch clears it. */
  datatype ProcessState = ProcessState(
    svc: ServiceConfig,
    owned: Option<ChildId>,
    proc: Option<ChildId>,
    pid: Option<nat>,
    status: Status,
    health: Health,
    restarts: nat,
    crashes: nat,
    startedAt: Option<nat>,
    intentionalStop: bool,
    restartPendingUntil: Option<nat>,
    remote: Option<string>)

  /** A child process. `row` is the state object its handlers close over.  `stopped`,
   *  `crashCounted` and `requeued` record what has been done with it: a stop or force-stop
   *  acted on it, its exit was counted as a crash, its exit queued an auto-restart. */
  datatype Child = Child(
    svc: ServiceConfig,
    row: RowId,
    spawned: bool,            // the operating system gave it a pid
    exited: bool,
    stopped: bool,
    sigterm: bool,
    sigkill: bool,
    crashCounted: bool,
    requeued: bool)

  datatype Outcome = Refused | LeftAlone | Removed | FailedBeforeStart | Spawned(child: ChildId)

  datatype StartPhase =
    | PortCheck
    | ExitWait(child: ChildId, deadline: nat)
    | PortRecheck
    | Building
    | Settled(outcome: Outcome)

  /** One run of `startNow`. `auto` says that an auto-restart waits for it to settle. */
  datatype StartTask = StartTask(svc: ServiceConfig, isRestart: bool, generation: nat, auto: bool, phase: StartPhase)

  datatype RestartTimer = RestartTimer(svc: ServiceConfig, due: nat)

  datatype RequestPhase =
    | Draining(child: ChildId, deadline: nat)   // startService waits for a stop in flight
    | Installing                                // startService awaits the install
    | Settling(due: nat)                        // Restarter.restart lets the old process go
    | Handed                                    // the spawner has it, or nothing is left to do

  /** An explicit start (`startService`) or manual restart under way, with the state object it captured. */
  datatype Request = Request(name: Name, row: RowId, phase: RequestPhase)

  datatype Poll = Poll(name: Name, row: RowId, open: bool)

  /** An on-demand start that waits for its port; it writes over whatever is registered when it settles. */
  datatype Wake = Wake(name: Name, suspended: bool, open: bool)

  /** A `--once` boot has found the service ready, when `row` was registered for it, and has not said so yet. */
  datatype Report = Report(name: Name, row: Option<RowId>, open: bool)

  datatype Cleanup = Cleanup(taken: set<ChildId>, deadline: nat, killed: bool)

  /** The starts, and `starting`: the one in flight under each name. */
  datatype Starts = Starts(tasks: seq<StartTask>, starting: map<Name, TaskId>)

  /** Startup windows: whose timer the spawner holds under each name, and when each armed timer is due. */
  datatype Windows = Windows(owner: map<Name, RowId>, due: map<RowId, nat>)

  /** Auto-restarts: the timer the restarter holds under each name, and the timers that are armed. */
  datatype Queue = Queue(pending: map<Name, TimerId>, timers: map<TimerId, RestartTimer>, next: TimerId)

  /** Counters kept per name: removals, and consecutive failed probes. */
  datatype Tallies = Tallies(removals: map<Name, nat>, failures: map<Name, nat>)

  datatype Supervisor = Supervisor(
    clock: nat,
    closing: bool,
    state: map<Name, RowId>,
    rows: seq<ProcessState>,
    children: seq<Child>,
    procs: set<ChildId>,
    starts: Starts,
    windows: Windows,
    queue: Queue,
    tallies: Tallies,
    requests: seq<Request>,
    polls: seq<Poll>,
    wakes: seq<Wake>,
    reports: seq<Report>,
    cleanups: seq<Cleanup>)

  /** A supervisor that has just been constructed. */
  predicate Initial(s: Supervisor) {
    && !s.closing && s.state == map[] && s.rows == [] && s.children == [] && s.procs == {}
    && s.starts == Starts([], map[]) && s.windows == Windows(map[], map[])
    && s.queue.pending == map[] && s.queue.timers == map[] && s.tallies == Tallies(map[], map[])
    && s.requests == [] && s.polls == [] && s.wakes == [] && s.reports == [] && s.cleanups == []
  }

  /** What the machine answers in the synchronous tail of a start. */
  datatype World = World(watchPathsExist: bool, spawnSucceeds: bool)

  const FINE: World := World(true, true)

  datatype Event =
    | Tick(ms: nat)
    | StartCall(svc: ServiceConfig, isRestart: bool, world: World)
    | PortResult(task: TaskId, bindable: bool, world: World)
    | ExitWaitOver(task: TaskId)
    | BuildResult(task: TaskId, ok: bool, world: World)
    | Line(child: ChildId, matches: bool)
    | Close(child: ChildId, cleanExit: bool)
    | StartupTimerFires(row: RowId)
    | RestartTimerFires(timer: TimerId, world: World)
    | StopCall(name: Name)
    | ForceStopCall(name: Name)
    | CancelCall(name: Name)
    | RemoveCall(name: Name)
    | StartServiceCall(name: Name)
    | DrainOver(request: nat)
    | InstallDone(request: nat, world: World)
    | RestartServiceCall(name: Name)
    | RestartResume(request: nat, world: World)
    | CleanupCall(graceMs: nat)
    | GraceOver(cleanup: nat)
    | PollBegin(name: Name)
    | PollResult(poll: nat, ok: bool)
    | ForgetHealthCall(name: Name)
    | BootMarksRunning(name: Name)
    | RegisterLazyCall(svc: ServiceConfig)
    | IdleStopCall(name: Name)
    | WakeBegin(svc: ServiceConfig)
    | WakeSettles(wake: nat, reachable: bool)
    | WakeGivesUp(wake: nat)
    | RegisterRemoteCall(svc: ServiceConfig, env: string)
    | RemoteCommit(row: RowId, svc: ServiceConfig, env: string)
    | LocalCommit(row: RowId, svc: ServiceConfig)
    | RemoteProbe(name: Name, reachable: bool)
    | OnceSettles(svc: ServiceConfig, reachable: bool)
    | OnceReports(report: nat)

  // ---------------------------------------------------------------- reading a state

  predicate Registered(s: Supervisor, n: Name) {
    n in s.state && s.state[n] < |s.rows|
  }

  function Entry(s: Supervisor, n: Name): ProcessState
    requires Registered(s, n)
  {
    s.rows[s.state[n]]
  }

  /** `isRunning` of liveness.ts: from the process object, never from the pid. */
  predicate IsRunning(s: Supervisor, st: ProcessState) {
    st.proc.Some? && st.proc.value < |s.children| && !s.children[st.proc.value].exited
  }

  predicate Alive(s: Supervisor, p: ChildId) {
    p < |s.children| && s.children[p].spawned && !s.children[p].exited
  }

  function Generation(s: Supervisor, n: Name): nat {
    if n in s.tallies.removals then s.tallies.removals[n] else 0
  }

  function FailureCount(s: Supervisor, n: Name): nat {
    if n in s.tallies.failures then s.tallies.failures[n] else 0
  }

  predicate InFlight(s: Supervisor, t: TaskId) {
    t < |s.starts.tasks| && !s.starts.tasks[t].phase.Settled?
  }

  /** An armed restart timer of the name. */
  predicate TimerFor(s: Supervisor, n: Name, k: int) {
    k in s.queue.timers && s.queue.timers[k].svc.name == n
  }

  function Pow2(n: nat): nat {
    if n == 0 then 1 else 2 * Pow2(n - 1)
  }

  /** health.ts: what a probe result means for a service in `status`. */
  function DeriveHealth(isUp: bool, status: Status): Health {
    if status.Idle? then Asleep
    else if isUp then Up
    else if status.Starting? then Waiting
    else Down
  }

  // ---------------------------------------------------------------- small updates

  function SetRow(s: Supervisor, r: RowId, st: ProcessState): Supervisor
    requires r < |s.rows|
  {
    s.(rows := s.rows[r := st])
  }

  function SetTask(s: Supervisor, t: TaskId, task: StartTask): Supervisor
    requires t < |s.starts.tasks|
  {
    s.(starts := s.starts.(tasks := s.starts.tasks[t := task]))
  }

  /** The rows without the pending mark of the name's entry: Restarter.clearPending. */
  function Unmarked(rows: seq<ProcessState>, state: map<Name, RowId>, n: Name): (rows': seq<ProcessState>)
    ensures |rows'| == |rows|
  {
    if n in state && state[n] < |rows| then rows[state[n] := rows[state[n]].(restartPendingUntil := None)] else rows
  }

  /** Restarter.cancel. */
  function CancelRestart(s: Supervisor, n: Name): Supervisor {
    s.(rows := Unmarked(s.rows, s.state, n),
       queue := s.queue.(
         timers := if n in s.queue.pending then s.queue.timers - {s.queue.pending[n]} else s.queue.timers,
         pending := s.queue.pending - {n}))
  }

  /** Whether `Lifecycle.stop` and `forceStop` would act on the name. */
  predicate Stoppable(s: Supervisor, n: Name) {
    && Registered(s, n)
    && IsRunning(s, Entry(s, n))
    && Entry(s, n).pid.Some?
  }

  /** Lifecycle.stop and Lifecycle.forceStop: they differ in the signal only. */
  function SignalService(s: Supervisor, n: Name, kill: bool): Supervisor {
    s.(rows := if Stoppable(s, n) then s.rows[s.state[n] := Entry(s, n).(intentionalStop := true)] else s.rows,
       children := if Stoppable(s, n) then Signalled(s.children, Entry(s, n).proc.value, kill) else s.children)
  }

  function Signalled(children: seq<Child>, p: ChildId, kill: bool): (children': seq<Child>)
    requires p < |children|
    ensures |children'| == |children|
  {
    var c := children[p];
    children[p := c.(stopped := true, sigterm := c.sigterm || !kill, sigkill := c.sigkill || kill)]
  }

  /** ProcessManager.stop. */
  function StopService(s: Supervisor, n: Name): Supervisor {
    SignalService(CancelRestart(s, n), n, false)
  }

  /** ProcessManager.remove. */
  function RemoveService(s: Supervisor, n: Name): Supervisor {
    if !Registered(s, n) then s
    else
      var s1 := SignalService(s, n, false);
      CancelRestart(s1.(state := s.state - {n},
                        tallies := Tallies(s.tallies.removals[n := Generation(s, n) + 1], s.tallies.failures - {n})), n)
  }

  /** Whether Spawner.clearStartupTimer finds a timer to clear: only the owner's, when an owner is given. */
  predicate HoldsTimer(w: Windows, n: Name, owner: Option<RowId>) {
    n in w.owner && (owner.None? || owner.value == w.owner[n])
  }

  function Disarmed(w: Windows, n: Name, owner: Option<RowId>): Windows {
    if HoldsTimer(w, n, owner) then Windows(w.owner - {n}, w.due - {w.owner[n]}) else w
  }

  /** Spawner.clearStartupTimer. */
  function ClearStartupTimer(s: Supervisor, n: Name, owner: Option<RowId>): Supervisor {
    s.(windows := Disarmed(s.windows, n, owner))
  }

  function PreviousRestarts(s: Supervisor, n: Name): nat {
    if Registered(s, n) then Entry(s, n).restarts else 0
  }

  function PreviousCrashes(s: Supervisor, n: Name): nat {
    if Registered(s, n) then Entry(s, n).crashes else 0
  }

  /** Install a fresh state object under the name. */
  function Install(s: Supervisor, n: Name, st: ProcessState): Supervisor {
    s.(rows := s.rows + [st], state := s.state[n := |s.rows|])
  }

  /** Spawner.recordCrashedState: a failure before there was a process. */
  function RecordCrashed(s: Supervisor, svc: ServiceConfig): Supervisor {
    Install(s, svc.name,
            ProcessState(svc, None, None, None, Crashed, Down,
                         PreviousRestarts(s, svc.name), PreviousCrashes(s, svc.name) + 1,
                         None, false, None, None))
  }

  // ---------------------------------------------------------------- starting

  /** The start settles: `starting` forgets it, and an auto-restart that waited for it
   *  stops advertising itself. */
  function Settle(s: Supervisor, t: TaskId, outcome: Outcome): Supervisor
    requires t < |s.starts.tasks|
  {
    var task := s.starts.tasks[t];
    s.(starts := Starts(s.starts.tasks[t := task.(phase := Settled(outcome))], s.starts.starting - {task.svc.name}),
       rows := if task.auto then Unmarked(s.rows, s.state, task.svc.name) else s.rows)
  }

  /** Whether scheduleStartupTimeout arms a timer at all. */
  predicate HasStartupWindow(svc: ServiceConfig) {
    !svc.suspended && svc.startupTimeoutMs > 0
  }

  function Armed(w: Windows, svc: ServiceConfig, r: RowId, clock: nat): Windows {
    if HasStartupWindow(svc) then Windows(w.owner[svc.name := r], w.due[r := clock + svc.startupTimeoutMs]) else w
  }

  function Spawn(s: Supervisor, t: TaskId, succeeds: bool): Supervisor
    requires t < |s.starts.tasks|
  {
    var svc := s.starts.tasks[t].svc;
    var p, r := |s.children|, |s.rows|;
    var s1 := Install(s, svc.name,
                      ProcessState(svc, Some(p), Some(p), if succeeds then Some(p) else None, Starting, Waiting,
                                   PreviousRestarts(s, svc.name), PreviousCrashes(s, svc.name),
                                   Some(s.clock), false, None, None))
              .(children := s.children + [Child(svc, r, succeeds, false, false, false, false, false, false)],
                procs := s.procs + {p});
    Settle(s1.(windows := Armed(s.windows, svc, r, s.clock)), t, Spawned(p))
  }

  /** startNow after the pre-build: the last guards and the spawn. */
  function AfterBuild(s: Supervisor, t: TaskId, world: World): Supervisor
    requires t < |s.starts.tasks|
  {
    var task := s.starts.tasks[t];
    if !world.watchPathsExist then Settle(RecordCrashed(s, task.svc), t, FailedBeforeStart)
    else if Generation(s, task.svc.name) != task.generation then Settle(s, t, Removed)
    else if s.closing then Settle(s, t, Refused)
    else Spawn(s, t, world.spawnSucceeds)
  }

  /** startNow after the port check. */
  function AfterPort(s: Supervisor, t: TaskId, world: World): Supervisor
    requires t < |s.starts.tasks|
  {
    var task := s.starts.tasks[t];
    var s1 := ClearStartupTimer(s, task.svc.name, None);
    if !task.svc.hasPreBuild then AfterBuild(s1, t, world)
    else if s1.closing then Settle(s1, t, Refused)
    else SetTask(s1, t, task.(phase := Building))
  }

  function PortTaken(s: Supervisor, t: TaskId): Supervisor
    requires t < |s.starts.tasks|
  {
    var svc := s.starts.tasks[t].svc;
    Settle(RecordCrashed(ClearStartupTimer(s, svc.name, None), svc), t, FailedBeforeStart)
  }

  /** A new start, in flight under its name. */
  function Enter(s: Supervisor, task: StartTask): Supervisor {
    s.(starts := Starts(s.starts.tasks + [task], s.starts.starting[task.svc.name := |s.starts.tasks|]))
  }

  /** Spawner.start: join the start in flight, or run startNow to its first await. */
  function Start(s: Supervisor, svc: ServiceConfig, isRestart: bool, auto: bool, world: World): Supervisor {
    if svc.name in s.starts.starting then
      var t := s.starts.starting[svc.name];
      if auto && t < |s.starts.tasks| then SetTask(s, t, s.starts.tasks[t].(auto := true)) else s
    else
      var t := |s.starts.tasks|;
      var task := StartTask(svc, isRestart, Generation(s, svc.name), auto, PortCheck);
      var s1 := Enter(s, task);
      if s.closing then Settle(s1, t, Refused)
      else if Registered(s, svc.name) && Entry(s, svc.name).remote.Some? then Settle(s1, t, Refused)
      else if svc.isApi then s1
      else AfterPort(s1, t, world)
  }

  function OnPortResult(s: Supervisor, t: TaskId, bindable: bool, world: World): Supervisor {
    if !InFlight(s, t) then s
    else
      var task := s.starts.tasks[t];
      match task.phase
      case PortCheck =>
        if bindable || task.isRestart then AfterPort(s, t, world)
        else if Registered(s, task.svc.name) && IsRunning(s, Entry(s, task.svc.name)) then
          var st := Entry(s, task.svc.name);
          if !st.intentionalStop then Settle(s, t, LeftAlone)
          else SetTask(s, t, task.(phase := ExitWait(st.proc.value, s.clock + STOP_GRACE_MS)))
        else PortTaken(s, t)
      case PortRecheck =>
        if bindable then AfterPort(s, t, world) else PortTaken(s, t)
      case _ => s
  }

  predicate WaitOver(s: Supervisor, p: ChildId, deadline: nat) {
    (p < |s.children| && s.children[p].exited) || deadline <= s.clock
  }

  function OnExitWaitOver(s: Supervisor, t: TaskId): Supervisor {
    if InFlight(s, t) && s.starts.tasks[t].phase.ExitWait?
       && WaitOver(s, s.starts.tasks[t].phase.child, s.starts.tasks[t].phase.deadline)
    then SetTask(s, t, s.starts.tasks[t].(phase := PortRecheck))
    else s
  }

  function OnBuildResult(s: Supervisor, t: TaskId, ok: bool, world: World): Supervisor {
    if !(InFlight(s, t) && s.starts.tasks[t].phase.Building?) then s
    else if ok then AfterBuild(s, t, world)
    else Settle(RecordCrashed(s, s.starts.tasks[t].svc), t, FailedBeforeStart)
  }

  // ---------------------------------------------------------------- a child's events

  /** wireStdio: a line of output, and whether it matches the ready pattern. */
  function OnLine(s: Supervisor, p: ChildId, matches: bool): Supervisor {
    if !(p < |s.children| && !s.children[p].exited && s.children[p].row < |s.rows|) then s
    else
      var c := s.children[p];
      var st := s.rows[c.row];
      if !c.svc.hasReadyPattern || st.health.Up? || !matches then s
      else
        ClearStartupTimer(
          SetRow(s, c.row, st.(health := Up, status := if st.status.Starting? then Running else st.status)),
          c.svc.name, Some(c.row))
  }

  /** Restarter.scheduleAutoRestart, called for the exit of `p`. */
  function ScheduleAutoRestart(s: Supervisor, p: ChildId): Supervisor
    requires p < |s.children| && s.children[p].row < |s.rows|
  {
    var c := s.children[p];
    var st := s.rows[c.row];
    if st.restarts >= MAX_RESTARTS then s
    else
      var delay := BACKOFF_BASE_MS * Pow2(st.restarts);
      s.(rows := s.rows[c.row := st.(restarts := st.restarts + 1, restartPendingUntil := Some(s.clock + delay))],
        queue := Queue(s.queue.pending[c.svc.name := s.queue.next],
                       s.queue.timers[s.queue.next := RestartTimer(c.svc, s.clock + delay)],
                       s.queue.next + 1),
        children := s.children[p := c.(requeued := true)])
  }

  /** What every exit does first, whatever it means. */
  function ChildGone(s: Supervisor, p: ChildId): (s': Supervisor)
    requires p < |s.children|
    ensures s'.rows == s.rows && |s'.children| == |s.children| && s'.children[p] == s.children[p].(exited := true)
  {
    var c := s.children[p];
    ClearStartupTimer(s.(procs := s.procs - {p}, children := s.children[p := c.(exited := true)]),
                      c.svc.name, Some(c.row))
  }

  /** The exit counts as a crash of the state object `p` was spawned with. */
  function CountCrash(s: Supervisor, p: ChildId, intentionalStop: bool): (s': Supervisor)
    requires p < |s.children| && s.children[p].row < |s.rows|
    ensures |s'.rows| == |s.rows| && |s'.children| == |s.children| && s'.children[p].row == s.children[p].row
  {
    var c := s.children[p];
    var st := s.rows[c.row];
    s.(rows := s.rows[c.row := st.(status := Crashed, health := Down, crashes := st.crashes + 1,
                                   intentionalStop := intentionalStop)],
       children := s.children[p := c.(crashCounted := true)])
  }

  /** wireCloseHandler: the child is gone and its streams have ended. */
  function OnClose(s: Supervisor, p: ChildId, cleanExit: bool): Supervisor {
    if !(p < |s.children| && !s.children[p].exited && s.children[p].row < |s.rows|) then s
    else
      var c := s.children[p];
      var s1 := ChildGone(s, p);
      var st := s1.rows[c.row];
      if !c.spawned then CountCrash(s1, p, false)
      else if st.intentionalStop then
        if c.svc.name in s.state && s.state[c.svc.name] == c.row && st.proc == Some(p)
           && (st.status.Starting? || st.status.Running? || st.status.TimedOut?)
        then SetRow(s1, c.row, st.(intentionalStop := false, status := Stopped, health := Down))
        else SetRow(s1, c.row, st.(intentionalStop := false))
      else if cleanExit then SetRow(s1, c.row, st.(status := Stopped, health := Down))
      else ScheduleAutoRestart(CountCrash(s1, p, st.intentionalStop), p)
  }

  // ---------------------------------------------------------------- timers

  predicate StartupTimerDue(s: Supervisor, r: RowId) {
    r in s.windows.due && s.windows.due[r] <= s.clock && r < |s.rows|
  }

  /** The startup window of state object `r` is over. */
  function OnStartupTimer(s: Supervisor, r: RowId): Supervisor {
    if !StartupTimerDue(s, r) then s
    else
      var st := s.rows[r];
      var n := st.svc.name;
      s.(windows := Windows(if n in s.windows.owner && s.windows.owner[n] == r then s.windows.owner - {n}
                            else s.windows.owner,
                            s.windows.due - {r}),
         rows := if n in s.state && s.state[n] == r && !st.health.Up?
                 then s.rows[r := st.(status := TimedOut, health := Down)] else s.rows)
  }

  predicate RestartTimerDue(s: Supervisor, timer: TimerId) {
    timer in s.queue.timers && s.queue.timers[timer].due <= s.clock
  }

  function OnRestartTimer(s: Supervisor, timer: TimerId, world: World): Supervisor {
    if !RestartTimerDue(s, timer) then s
    else
      var svc := s.queue.timers[timer].svc;
      Start(s.(queue := s.queue.(timers := s.queue.timers - {timer}, pending := s.queue.pending - {svc.name})),
            svc, true, true, world)
  }

  // ---------------------------------------------------------------- explicit starts

  /** startService once no stop is in flight. */
  function AfterDrain(s: Supervisor, q: nat): Supervisor
    requires q < |s.requests|
  {
    var req := s.requests[q];
    if !(Registered(s, req.name) && req.row < |s.rows|) then s.(requests := s.requests[q := req.(phase := Handed)])
    else
      var s1 := CancelRestart(s, req.name);
      s1.(rows := s1.rows[req.row := s1.rows[req.row].(restarts := 0)],
          requests := s.requests[q := req.(phase := Installing)])
  }

  function OnStartService(s: Supervisor, n: Name): Supervisor {
    if !Registered(s, n) || Entry(s, n).remote.Some? then s
    else
      var st := Entry(s, n);
      var q := |s.requests|;
      if IsRunning(s, st) then
        if !st.intentionalStop then s
        else s.(requests := s.requests
                  + [Request(n, s.state[n], Draining(st.proc.value, s.clock + STOP_GRACE_MS))])
      else
        AfterDrain(s.(requests := s.requests + [Request(n, s.state[n], Installing)]), q)
  }

  function OnDrainOver(s: Supervisor, q: nat): Supervisor {
    if !(q < |s.requests| && s.requests[q].phase.Draining?) then s
    else
      var phase := s.requests[q].phase;
      if phase.child < |s.children| && s.children[phase.child].exited then AfterDrain(s, q)
      else if phase.deadline <= s.clock then s.(requests := s.requests[q := s.requests[q].(phase := Handed)])
      else s
  }

  /** Hand a request to the spawner, unless the service left the registry meanwhile. */
  function HandOver(s: Supervisor, q: nat, isRestart: bool, world: World): Supervisor
    requires q < |s.requests|
  {
    var req := s.requests[q];
    var s1 := s.(requests := s.requests[q := req.(phase := Handed)]);
    if Registered(s, req.name) && req.row < |s.rows|
    then Start(s1, s.rows[req.row].svc, isRestart, false, world)
    else s1
  }

  function OnInstallDone(s: Supervisor, q: nat, world: World): Supervisor {
    if q < |s.requests| && s.requests[q].phase.Installing? then HandOver(s, q, false, world) else s
  }

  /** Restarter.restart up to its settle delay. */
  function OnRestartService(s: Supervisor, n: Name): Supervisor {
    if !Registered(s, n) then s
    else
      var s1 := StopService(s, n);
      var st := Entry(s1, n);
      var delay := if IsRunning(s1, st) then RESTART_SETTLE_LIVE_MS else RESTART_SETTLE_DEAD_MS;
      s1.(rows := s1.rows[s1.state[n] := st.(restarts := 0)],
          requests := s.requests + [Request(n, s.state[n], Settling(s.clock + delay))])
  }

  function OnRestartResume(s: Supervisor, q: nat, world: World): Supervisor {
    if q < |s.requests| && s.requests[q].phase.Settling? && s.requests[q].phase.due <= s.clock
    then HandOver(s, q, true, world)
    else s
  }

  // ---------------------------------------------------------------- shutting down

  /** Whether `cleanup` finds the row from one of the processes it takes. */
  predicate FoundByCleanup(s: Supervisor, r: RowId) {
    r < |s.rows| && s.rows[r].proc.Some? && s.rows[r].proc.value in s.procs
    && exists n :: n in s.state && s.state[n] == r
  }

  /** Whether `cancelAll` clears the pending mark of the row. */
  predicate HasQueuedRestart(s: Supervisor, r: RowId) {
    exists n :: n in s.queue.pending && n in s.state && s.state[n] == r
  }

  /** Restarter.cancelAll. */
  function CancelAll(s: Supervisor): Supervisor {
    s.(rows := seq(|s.rows|, r requires 0 <= r < |s.rows| =>
                   if HasQueuedRestart(s, r) then s.rows[r].(restartPendingUntil := None) else s.rows[r]),
       queue := s.queue.(timers := s.queue.timers - s.queue.pending.Values, pending := map[]))
  }

  /** Lifecycle.cleanup up to its wait. */
  function SignalAll(s: Supervisor, graceMs: nat): Supervisor {
    if s.procs == {} then s
    else
      s.(rows := seq(|s.rows|, r requires 0 <= r < |s.rows| =>
                     if FoundByCleanup(s, r) then s.rows[r].(intentionalStop := true) else s.rows[r]),
         children := seq(|s.children|, p requires 0 <= p < |s.children| =>
                         if p in s.procs && s.children[p].spawned
                         then s.children[p].(sigterm := true) else s.children[p]),
         cleanups := s.cleanups + [Cleanup(s.procs, s.clock + graceMs, false)])
  }

  /** ProcessManager.cleanup. */
  function OnCleanup(s: Supervisor, graceMs: nat): Supervisor {
    SignalAll(CancelAll(s.(closing := true)), graceMs)
  }

  /** The grace period of one cleanup is over: SIGKILL what it took and still lives. */
  function OnGraceOver(s: Supervisor, k: nat): Supervisor {
    if !(k < |s.cleanups| && !s.cleanups[k].killed && s.cleanups[k].deadline <= s.clock) then s
    else
      s.(children := seq(|s.children|, p requires 0 <= p < |s.children| =>
                         if p in s.cleanups[k].taken && Alive(s, p)
                         then s.children[p].(sigkill := true) else s.children[p]),
         cleanups := s.cleanups[k := s.cleanups[k].(killed := true)])
  }

  // ---------------------------------------------------------------- health

  /** Whether HealthPoller.checkAll writes the entry off without a probe. */
  predicate WrittenOff(s: Supervisor, n: Name) {
    && Registered(s, n) && Entry(s, n).remote.None?
    && (!IsRunning(s, Entry(s, n)) || Entry(s, n).status.Idle?)
  }

  /** Whether HealthPoller.checkAll probes the entry now. */
  predicate Probes(s: Supervisor, n: Name) {
    && Registered(s, n) && Entry(s, n).remote.None? && !WrittenOff(s, n)
    && var st := Entry(s, n);
       !(st.svc.startPeriodMs > 0 && st.startedAt.Some? && s.clock < st.startedAt.value + st.svc.startPeriodMs)
  }

  /** HealthPoller.checkAll for one entry, up to its probe. */
  function OnPollBegin(s: Supervisor, n: Name): Supervisor {
    s.(rows := if WrittenOff(s, n)
               then s.rows[s.state[n] := Entry(s, n).(health := if Entry(s, n).status.Idle? then Asleep else Down)]
               else s.rows,
       polls := if Probes(s, n) then s.polls + [Poll(n, s.state[n], true)] else s.polls)
  }

  /** What HealthPoller.checkAll writes into the state object once the probe has answered;
   *  `count` is the failure streak, this answer included. */
  function Probed(st: ProcessState, ok: bool, count: nat): ProcessState {
    if ok then
      if st.svc.hasReadyPattern && !st.health.Up? && !st.status.TimedOut? then st
      else
        var h := DeriveHealth(true, st.status);
        st.(health := h, status := if h.Up? && (st.status.Starting? || st.status.TimedOut?) then Running else st.status)
    else if count >= st.svc.failureThreshold then st.(health := DeriveHealth(false, st.status))
    else st
  }

  predicate Polling(s: Supervisor, k: nat) {
    k < |s.polls| && s.polls[k].open
  }

  /** Whether the entry that was probed is still the registered one. */
  predicate StillProbed(s: Supervisor, k: nat)
    requires Polling(s, k)
  {
    Registered(s, s.polls[k].name) && s.state[s.polls[k].name] == s.polls[k].row
  }

  /** HealthPoller.checkAll after its probe: nothing, if the entry was replaced meanwhile. */
  function OnPollResult(s: Supervisor, k: nat, ok: bool): Supervisor {
    if !Polling(s, k) then s
    else
      var n, r := s.polls[k].name, s.polls[k].row;
      s.(polls := s.polls[k := s.polls[k].(open := false)],
         tallies := if StillProbed(s, k) then s.tallies.(failures := CountProbe(s, n, ok)) else s.tallies,
         rows := if StillProbed(s, k) then s.rows[r := Probed(s.rows[r], ok, FailureCount(s, n) + 1)] else s.rows)
  }

  function CountProbe(s: Supervisor, n: Name, ok: bool): map<Name, nat> {
    if ok then s.tallies.failures - {n} else s.tallies.failures[n := FailureCount(s, n) + 1]
  }

  // ---------------------------------------------------------------- written from outside the manager

  function OnRegisterLazy(s: Supervisor, svc: ServiceConfig): Supervisor {
    Install(s, svc.name, ProcessState(svc, None, None, None, Idle, Asleep, 0, 0, None, false, None, None))
  }

  function OnIdleStop(s: Supervisor, n: Name): Supervisor {
    if !Registered(s, n) || Entry(s, n).remote.Some? then s
    else
      var s1 := StopService(s, n);
      SetRow(s1, s1.state[n], Entry(s1, n).(status := Idle, health := Asleep, startedAt := None))
  }

  /** What the end of an on-demand start writes into the entry, and a `--once` boot that found it ready. */
  function Awake(s: Supervisor, n: Name, reachable: bool, suspended: bool): Supervisor {
    if !Registered(s, n) then s
    else if reachable then SetRow(s, s.state[n], Entry(s, n).(status := Running, health := Up))
    else if !suspended then SetRow(s, s.state[n], Entry(s, n).(status := TimedOut))
    else s
  }

  /** The on-demand start of registerLazy up to its first wait, with the live configuration if there is
   *  one.  What it does to the process meanwhile are events of their own. */
  function OnWakeBegin(s: Supervisor, svc: ServiceConfig): Supervisor {
    var cfg := if Registered(s, svc.name) then Entry(s, svc.name).svc else svc;
    CancelRestart(s, svc.name).(wakes := s.wakes + [Wake(svc.name, cfg.suspended, true)])
  }

  predicate Waking(s: Supervisor, w: nat) {
    w < |s.wakes| && s.wakes[w].open
  }

  predicate IsWakeOf(s: Supervisor, w: nat, n: Name) {
    Waking(s, w) && s.wakes[w].name == n
  }

  function OnWakeGivesUp(s: Supervisor, w: nat): Supervisor {
    if Waking(s, w) then s.(wakes := s.wakes[w := s.wakes[w].(open := false)]) else s
  }

  /** The port has answered, or the wait for it is over. */
  function OnWakeSettles(s: Supervisor, w: nat, reachable: bool): Supervisor {
    if Waking(s, w) then Awake(OnWakeGivesUp(s, w), s.wakes[w].name, reachable, s.wakes[w].suspended) else s
  }

  /** The bar of waitReady: up, or its port answers and no pattern has the window to itself. */
  predicate MeetsBar(s: Supervisor, svc: ServiceConfig, reachable: bool) {
    var cfg := if Registered(s, svc.name) then Entry(s, svc.name).svc else svc;
    || (Registered(s, svc.name) && Entry(s, svc.name).health.Up?)
    || (reachable && (cfg.isApi || !cfg.hasReadyPattern
                      || (Registered(s, svc.name) && Entry(s, svc.name).status.TimedOut?)))
  }

  /** waitReady returns; the report waits until the whole phase has settled. */
  function OnOnceSettles(s: Supervisor, svc: ServiceConfig, reachable: bool): Supervisor {
    var row := if Registered(s, svc.name) then Some(s.state[svc.name]) else None;
    if MeetsBar(s, svc, reachable) then s.(reports := s.reports + [Report(svc.name, row, true)]) else s
  }

  predicate Reporting(s: Supervisor, k: nat) {
    k < |s.reports| && s.reports[k].open
  }

  function OnOnceReports(s: Supervisor, k: nat): Supervisor {
    if !Reporting(s, k) then s
    else Awake(s.(reports := s.reports[k := s.reports[k].(open := false)]), s.reports[k].name, true, true)
  }

  function OnRegisterRemote(s: Supervisor, svc: ServiceConfig, env: string): Supervisor {
    Install(s, svc.name,
            ProcessState(svc, None, None, None, Running, Waiting, 0, 0, Some(s.clock), false, None, Some(env)))
  }

  /** The writes of toRemote once the port is free, on the state object it captured. */
  function OnRemoteCommit(s: Supervisor, r: RowId, svc: ServiceConfig, env: string): Supervisor {
    if !(r < |s.rows| && svc.name == s.rows[r].svc.name) then s
    else SetRow(s, r, s.rows[r].(svc := svc, proc := None, pid := None, status := Running, health := Waiting,
                                 startedAt := Some(s.clock), remote := Some(env)))
  }

  /** The writes of toLocal once the remote proxy has let the port go. */
  function OnLocalCommit(s: Supervisor, r: RowId, svc: ServiceConfig): Supervisor {
    if !(r < |s.rows| && svc.name == s.rows[r].svc.name) then s
    else SetRow(s, r, s.rows[r].(svc := svc, status := Stopped, health := Down, startedAt := None, remote := None))
  }

  function OnRemoteProbe(s: Supervisor, n: Name, reachable: bool): Supervisor {
    if !Registered(s, n) || Entry(s, n).remote.None? then s
    else SetRow(s, s.state[n], Entry(s, n).(health := if reachable then Up else Down))
  }

  function OnBootMarksRunning(s: Supervisor, n: Name): Supervisor {
    if Registered(s, n) then SetRow(s, s.state[n], Entry(s, n).(status := Running)) else s
  }

  function OnForgetHealth(s: Supervisor, n: Name): Supervisor {
    s.(tallies := s.tallies.(failures := s.tallies.failures - {n}))
  }

  function OnTick(s: Supervisor, ms: nat): Supervisor {
    s.(clock := s.clock + ms)
  }

  // ---------------------------------------------------------------- runs

  function Step(s: Supervisor, e: Event): Supervisor {
    match e
    case Tick(ms) => OnTick(s, ms)
    case StartCall(svc, isRestart, world) => Start(s, svc, isRestart, false, world)
    case PortResult(t, bindable, world) => OnPortResult(s, t, bindable, world)
    case ExitWaitOver(t) => OnExitWaitOver(s, t)
    case BuildResult(t, ok, world) => OnBuildResult(s, t, ok, world)
    case Line(p, matches) => OnLine(s, p, matches)
    case Close(p, cleanExit) => OnClose(s, p, cleanExit)
    case StartupTimerFires(r) => OnStartupTimer(s, r)
    case RestartTimerFires(timer, world) => OnRestartTimer(s, timer, world)
    case StopCall(n) => StopService(s, n)
    case ForceStopCall(n) => SignalService(s, n, true)
    case CancelCall(n) => CancelRestart(s, n)
    case RemoveCall(n) => RemoveService(s, n)
    case StartServiceCall(n) => OnStartService(s, n)
    case DrainOver(q) => OnDrainOver(s, q)
    case InstallDone(q, world) => OnInstallDone(s, q, world)
    case RestartServiceCall(n) => OnRestartService(s, n)
    case RestartResume(q, world) => OnRestartResume(s, q, world)
    case CleanupCall(graceMs) => OnCleanup(s, graceMs)
    case GraceOver(k) => OnGraceOver(s, k)
    case PollBegin(n) => OnPollBegin(s, n)
    case PollResult(k, ok) => OnPollResult(s, k, ok)
    case ForgetHealthCall(n) => OnForgetHealth(s, n)
    case BootMarksRunning(n) => OnBootMarksRunning(s, n)
    case RegisterLazyCall(svc) => OnRegisterLazy(s, svc)
    case IdleStopCall(n) => OnIdleStop(s, n)
    case WakeBegin(svc) => OnWakeBegin(s, svc)
    case WakeSettles(w, reachable) => OnWakeSettles(s, w, reachable)
    case WakeGivesUp(w) => OnWakeGivesUp(s, w)
    case RegisterRemoteCall(svc, env) => OnRegisterRemote(s, svc, env)
    case RemoteCommit(r, svc, env) => OnRemoteCommit(s, r, svc, env)
    case LocalCommit(r, svc) => OnLocalCommit(s, r, svc)
    case RemoteProbe(n, reachable) => OnRemoteProbe(s, n, reachable)
    case OnceSettles(svc, reachable) => OnOnceSettles(s, svc, reachable)
    case OnceReports(k) => OnOnceReports(s, k)
  }

  /** What each event does, for proofs that need not see how. */
  lemma StepIs(s: Supervisor, e: Event)
    ensures match e
            case Tick(ms) => Step(s, e) == OnTick(s, ms)
            case StartCall(svc, isRestart, world) => Step(s, e) == Start(s, svc, isRestart, false, world)
            case PortResult(t, bindable, world) => Step(s, e) == OnPortResult(s, t, bindable, world)
            case ExitWaitOver(t) => Step(s, e) == OnExitWaitOver(s, t)
            case BuildResult(t, ok, world) => Step(s, e) == OnBuildResult(s, t, ok, world)
            case Line(p, matches) => Step(s, e) == OnLine(s, p, matches)
            case Close(p, cleanExit) => Step(s, e) == OnClose(s, p, cleanExit)
            case StartupTimerFires(r) => Step(s, e) == OnStartupTimer(s, r)
            case RestartTimerFires(timer, world) => Step(s, e) == OnRestartTimer(s, timer, world)
            case StopCall(n) => Step(s, e) == StopService(s, n)
            case ForceStopCall(n) => Step(s, e) == SignalService(s, n, true)
            case CancelCall(n) => Step(s, e) == CancelRestart(s, n)
            case RemoveCall(n) => Step(s, e) == RemoveService(s, n)
            case StartServiceCall(n) => Step(s, e) == OnStartService(s, n)
            case DrainOver(q) => Step(s, e) == OnDrainOver(s, q)
            case InstallDone(q, world) => Step(s, e) == OnInstallDone(s, q, world)
            case RestartServiceCall(n) => Step(s, e) == OnRestartService(s, n)
            case RestartResume(q, world) => Step(s, e) == OnRestartResume(s, q, world)
            case CleanupCall(graceMs) => Step(s, e) == OnCleanup(s, graceMs)
            case GraceOver(k) => Step(s, e) == OnGraceOver(s, k)
            case PollBegin(n) => Step(s, e) == OnPollBegin(s, n)
            case PollResult(k, ok) => Step(s, e) == OnPollResult(s, k, ok)
            case ForgetHealthCall(n) => Step(s, e) == OnForgetHealth(s, n)
            case BootMarksRunning(n) => Step(s, e) == OnBootMarksRunning(s, n)
            case RegisterLazyCall(svc) => Step(s, e) == OnRegisterLazy(s, svc)
            case IdleStopCall(n) => Step(s, e) == OnIdleStop(s, n)
            case WakeBegin(svc) => Step(s, e) == OnWakeBegin(s, svc)
            case WakeSettles(w, reachable) => Step(s, e) == OnWakeSettles(s, w, reachable)
            case WakeGivesUp(w) => Step(s, e) == OnWakeGivesUp(s, w)
            case RegisterRemoteCall(svc, env) => Step(s, e) == OnRegisterRemote(s, svc, env)
            case RemoteCommit(r, svc, env) => Step(s, e) == OnRemoteCommit(s, r, svc, env)
            case LocalCommit(r, svc) => Step(s, e) == OnLocalCommit(s, r, svc)
            case RemoteProbe(n, reachable) => Step(s, e) == OnRemoteProbe(s, n, reachable)
            case OnceSettles(svc, reachable) => Step(s, e) == OnOnceSettles(s, svc, reachable)
            case OnceReports(k) => Step(s, e) == OnOnceReports(s, k)
  {
    hide OnTick, Start, OnPortResult, OnExitWaitOver, OnBuildResult, OnLine, OnClose, OnStartupTimer,
         OnRestartTimer, StopService, SignalService, CancelRestart, RemoveService, OnStartService, OnDrainOver,
         OnInstallDone, OnRestartService, OnRestartResume, OnCleanup, OnGraceOver, OnPollBegin, OnPollResult,
         OnForgetHealth, OnBootMarksRunning, OnRegisterLazy, OnIdleStop, OnWakeBegin, OnWakeSettles,
         OnWakeGivesUp, OnOnceSettles, OnOnceReports, OnRegisterRemote, OnRemoteCommit, OnLocalCommit, OnRemoteProbe;
  }

  /** Events that make or keep a promise to write over an entry later. */
  predicate Promises(e: Event) {
    e.WakeBegin? || e.WakeSettles? || e.WakeGivesUp? || e.OnceSettles? || e.OnceReports?
  }

  lemma PromiseEvents(e: Event)
    ensures Promises(e)
            <==> e.WakeBegin? || e.WakeSettles? || e.WakeGivesUp? || e.OnceSettles? || e.OnceReports?
  {}

  /** What such an event does beside the promise. */
  function Written(s: Supervisor, e: Event): Supervisor {
    match e
    case WakeBegin(svc) => CancelRestart(s, svc.name)
    case WakeSettles(w, reachable) =>
      if Waking(s, w) then Awake(s, s.wakes[w].name, reachable, s.wakes[w].suspended) else s
    case OnceReports(k) => if Reporting(s, k) then Awake(s, s.reports[k].name, true, true) else s
    case _ => s
  }

  lemma WritesPassPromises(s: Supervisor, wakes: seq<Wake>, reports: seq<Report>, n: Name, reachable: bool,
                           suspended: bool)
    ensures Awake(s.(wakes := wakes, reports := reports), n, reachable, suspended)
            == Awake(s, n, reachable, suspended).(wakes := wakes, reports := reports)
    ensures CancelRestart(s, n).wakes == s.wakes && CancelRestart(s, n).reports == s.reports
  {}

  lemma AwakeWrites(s: Supervisor, n: Name, reachable: bool, suspended: bool)
    ensures var s' := Awake(s, n, reachable, suspended);
            && s' == s.(rows := s'.rows) && |s'.rows| == |s.rows|
            && forall r :: 0 <= r < |s.rows| ==>
                 && s'.rows[r].svc == s.rows[r].svc && s'.rows[r].remote == s.rows[r].remote
                 && (!(n in s.state && s.state[n] == r) ==> s'.rows[r] == s.rows[r])
                 && (reachable && s'.rows[r].status.TimedOut? ==> s.rows[r].status.TimedOut?)
  {}

  lemma WakesAre(s: Supervisor, e: Event)
    requires e.WakeBegin? || e.WakeSettles? || e.WakeGivesUp?
    ensures Step(s, e) == Written(s, e).(wakes := Step(s, e).wakes, reports := s.reports)
  {
    hide Step, CancelRestart, Awake;
    StepIs(s, e);
    if e.WakeBegin? { WritesPassPromises(s, s.wakes, s.reports, e.svc.name, true, true); }
    if e.WakeSettles? && Waking(s, e.wake) {
      var w := s.wakes[e.wake];
      WritesPassPromises(s, s.wakes[e.wake := w.(open := false)], s.reports, w.name, e.reachable, w.suspended);
    }
  }

  lemma ReportsAre(s: Supervisor, e: Event)
    requires e.OnceSettles? || e.OnceReports?
    ensures Step(s, e) == Written(s, e).(wakes := s.wakes, reports := Step(s, e).reports)
  {
    hide Step, CancelRestart, Awake, MeetsBar;
    StepIs(s, e);
    if e.OnceReports? && Reporting(s, e.report) {
      var k := s.reports[e.report];
      WritesPassPromises(s, s.wakes, s.reports[e.report := k.(open := false)], k.name, true, true);
    }
  }

  lemma PromisesAre(s: Supervisor, e: Event)
    requires Promises(e)
    ensures Step(s, e) == Written(s, e).(wakes := Step(s, e).wakes, reports := Step(s, e).reports)
  {
    hide Step, Written;
    if e.OnceSettles? || e.OnceReports? { ReportsAre(s, e); } else { WakesAre(s, e); }
  }

  function Run(s: Supervisor, events: seq<Event>): Supervisor
    decreases |events|
  {
    if events == [] then s else Run(Step(s, events[0]), events[1..])
  }
}
