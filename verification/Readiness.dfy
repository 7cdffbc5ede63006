/** How an always-on service with a ready pattern becomes ready, and how it stops being so: its own
 *  line, its own startup window, and a streak of failed probes. */
module Readiness {
  import opened Options
  import opened Supervision
  import opened SupervisionInvariants

  predicate IsUp(s: Supervisor, r: RowId) {
    r < |s.rows| && s.rows[r].health.Up?
  }

  predicate IsTimedOut(s: Supervisor, r: RowId) {
    r < |s.rows| && s.rows[r].status.TimedOut?
  }

  /** A state object of an always-on local service that has announced how it says it is ready. */
  predicate Announces(s: Supervisor, r: RowId) {
    r < |s.rows| && s.rows[r].svc.hasReadyPattern && s.rows[r].remote.None?
  }

  predicate Writes(s: Supervisor, n: Name, r: RowId) {
    n in s.state && s.state[n] == r
  }

  /** The wake of a lazy service or a switch writes the state object. */
  predicate WrittenFromOutside(s: Supervisor, e: Event, r: RowId) {
    || (e.WakeSettles? && Waking(s, e.wake) && Writes(s, s.wakes[e.wake].name, r))
    || (e.RemoteCommit? && e.row == r)
    || (e.LocalCommit? && e.row == r)
  }

  /** A `--once` boot reports the service ready, on whatever state object is registered. */
  predicate OnceSays(s: Supervisor, e: Event, r: RowId) {
    e.OnceReports? && Reporting(s, e.report) && Writes(s, s.reports[e.report].name, r)
  }

  /** A line of the process that was spawned with the state object matches the ready pattern. */
  predicate OwnReadyLine(s: Supervisor, e: Event, r: RowId) {
    && e.Line? && e.matches && e.child < |s.children| && !s.children[e.child].exited
    && s.children[e.child].row == r && s.children[e.child].svc.hasReadyPattern
  }

  /** The startup window of the state object ends. */
  predicate OwnWindowEnds(s: Supervisor, e: Event, r: RowId) {
    e == StartupTimerFires(r) && r in s.windows.due && s.windows.due[r] <= s.clock
  }

  // ---------------------------------------------------------------- what one step leaves alone

  predicate RowKept(s: Supervisor, s': Supervisor, r: RowId) {
    r < |s.rows| ==>
      && r < |s'.rows|
      && s'.rows[r].svc == s.rows[r].svc && s'.rows[r].remote == s.rows[r].remote
      && (s'.rows[r].health.Up? ==> s.rows[r].health.Up?)
      && (s'.rows[r].status.TimedOut? ==> s.rows[r].status.TimedOut?)
  }

  /** An armed timer keeps its deadline, and a new one belongs to a process just spawned. */
  ghost predicate WindowKept(s: Supervisor, s': Supervisor, r: int) {
    r in s'.windows.due ==>
      if r in s.windows.due then s'.windows.due[r] == s.windows.due[r]
      else && |s.rows| <= r < |s'.rows| && s'.rows[r].startedAt == Some(s.clock)
           && s'.windows.due[r] == s.clock + s'.rows[r].svc.startupTimeoutMs
  }

  ghost predicate LeavesReadiness(s: Supervisor, s': Supervisor) {
    && s'.clock == s.clock && |s.rows| <= |s'.rows|
    && (forall r: RowId :: RowKept(s, s', r))
    && (forall r: RowId :: WindowKept(s, s', r))
    && s'.tallies.failures == s.tallies.failures && SamePromises(s, s')
  }

  /** No promise to write an entry later was made or kept. */
  predicate SamePromises(s: Supervisor, s': Supervisor) {
    s'.wakes == s.wakes && s'.reports == s.reports
  }

  /** The segment that began in `a` has come to `s`, and armed nothing so far. */
  ghost predicate Since(a: Supervisor, s: Supervisor) {
    && LeavesReadiness(a, s) && s.windows.due.Keys <= a.windows.due.Keys
    && forall r: RowId :: r in a.windows.due ==> r < |a.rows|
  }

  lemma LeavesTransitive(a: Supervisor, b: Supervisor, c: Supervisor)
    requires Since(a, b) && LeavesReadiness(b, c)
    ensures LeavesReadiness(a, c)
  {
    forall r: RowId ensures RowKept(a, c, r) { assert RowKept(a, b, r) && RowKept(b, c, r); }
    forall r: RowId ensures WindowKept(a, c, r) { assert WindowKept(a, b, r) && WindowKept(b, c, r); }
  }

  lemma SameWindowsTransitive(a: Supervisor, b: Supervisor, c: Supervisor)
    requires LeavesReadiness(a, b) && LeavesReadiness(b, c) && a.windows == b.windows == c.windows
    ensures LeavesReadiness(a, c)
  {
    forall r: RowId ensures RowKept(a, c, r) { assert RowKept(a, b, r) && RowKept(b, c, r); }
  }

  lemma Leaves(s: Supervisor, s': Supervisor)
    requires s'.clock == s.clock && |s.rows| <= |s'.rows| && s'.tallies.failures == s.tallies.failures
    requires SamePromises(s, s')
    requires forall r: RowId :: RowKept(s, s', r)
    requires s'.windows == s.windows
    ensures LeavesReadiness(s, s')
  {}

  // ---------------------------------------------------------------- starting

  lemma SettleLeaves(a: Supervisor, s: Supervisor, t: TaskId, outcome: Outcome)
    requires t < |s.starts.tasks| && Since(a, s)
    ensures LeavesReadiness(a, Settle(s, t, outcome))
  {
    Leaves(s, Settle(s, t, outcome));
    LeavesTransitive(a, s, Settle(s, t, outcome));
  }

  lemma FailLeaves(a: Supervisor, s: Supervisor, t: TaskId)
    requires t < |s.starts.tasks| && Since(a, s)
    ensures LeavesReadiness(a, Settle(RecordCrashed(s, s.starts.tasks[t].svc), t, FailedBeforeStart))
  {
    var x := RecordCrashed(s, s.starts.tasks[t].svc);
    Leaves(s, x);
    LeavesTransitive(a, s, x);
    SettleLeaves(a, x, t, FailedBeforeStart);
  }

  lemma SpawnLeaves(a: Supervisor, s: Supervisor, t: TaskId, succeeds: bool)
    requires Inv(s) && t < |s.starts.tasks| && Since(a, s)
    ensures LeavesReadiness(a, Spawn(s, t, succeeds))
  {
    var s' := Spawn(s, t, succeeds);
    forall r: RowId ensures WindowKept(s, s', r) { assert DueOk(s.rows, s.windows, r); }
    LeavesTransitive(a, s, s');
  }

  lemma AfterBuildLeaves(a: Supervisor, s: Supervisor, t: TaskId, world: World)
    requires Inv(s) && t < |s.starts.tasks| && Since(a, s)
    ensures LeavesReadiness(a, AfterBuild(s, t, world))
  {
    var task := s.starts.tasks[t];
    if !world.watchPathsExist { FailLeaves(a, s, t); }
    else if Generation(s, task.svc.name) != task.generation { SettleLeaves(a, s, t, Removed); }
    else if s.closing { SettleLeaves(a, s, t, Refused); }
    else { SpawnLeaves(a, s, t, world.spawnSucceeds); }
  }

  lemma ClearTimerLeaves(s: Supervisor, n: Name, owner: Option<RowId>)
    ensures LeavesReadiness(s, ClearStartupTimer(s, n, owner))
    ensures ClearStartupTimer(s, n, owner).windows.due.Keys <= s.windows.due.Keys
  {}

  lemma AfterPortLeaves(a: Supervisor, s: Supervisor, t: TaskId, world: World)
    requires Inv(s) && t < |s.starts.tasks| && Since(a, s)
    ensures LeavesReadiness(a, AfterPort(s, t, world))
  {
    var task := s.starts.tasks[t];
    var s1 := ClearStartupTimer(s, task.svc.name, None);
    ClearStartupTimerKeeps(s, task.svc.name, None);
    ClearTimerLeaves(s, task.svc.name, None);
    LeavesTransitive(a, s, s1);
    if !task.svc.hasPreBuild { AfterBuildLeaves(a, s1, t, world); }
    else if s1.closing { SettleLeaves(a, s1, t, Refused); }
    else {
      Leaves(s1, SetTask(s1, t, task.(phase := Building)));
      LeavesTransitive(a, s1, SetTask(s1, t, task.(phase := Building)));
    }
  }

  lemma PortTakenLeaves(s: Supervisor, t: TaskId)
    requires t < |s.starts.tasks| && Since(s, s)
    ensures LeavesReadiness(s, PortTaken(s, t))
  {
    var svc := s.starts.tasks[t].svc;
    ClearTimerLeaves(s, svc.name, None);
    FailLeaves(s, ClearStartupTimer(s, svc.name, None), t);
  }

  lemma StartLeaves(a: Supervisor, s: Supervisor, svc: ServiceConfig, isRestart: bool, auto: bool, world: World)
    requires Inv(s) && Since(a, s)
    ensures LeavesReadiness(a, Start(s, svc, isRestart, auto, world))
  {
    if svc.name in s.starts.starting {
      Leaves(s, Start(s, svc, isRestart, auto, world));
      LeavesTransitive(a, s, Start(s, svc, isRestart, auto, world));
    } else {
      var t, task := |s.starts.tasks|, StartTask(svc, isRestart, Generation(s, svc.name), auto, PortCheck);
      EnterKeeps(s, task);
      var s1 := Enter(s, task);
      Leaves(s, s1);
      LeavesTransitive(a, s, s1);
      if s.closing || (Registered(s, svc.name) && Entry(s, svc.name).remote.Some?) { SettleLeaves(a, s1, t, Refused); }
      else if !svc.isApi { AfterPortLeaves(a, s1, t, world); }
    }
  }

  lemma Same(s: Supervisor)
    ensures LeavesReadiness(s, s)
  {}

  lemma Begins(s: Supervisor)
    requires Inv(s)
    ensures Since(s, s)
  {
    forall r: RowId ensures r in s.windows.due ==> r < |s.rows| { assert DueOk(s.rows, s.windows, r); }
  }

  lemma PortResultLeaves(s: Supervisor, t: TaskId, bindable: bool, world: World)
    requires Inv(s)
    ensures LeavesReadiness(s, OnPortResult(s, t, bindable, world))
  {
    Same(s);
    Begins(s);
    if InFlight(s, t) {
      hide Inv, LeavesReadiness, Since;
      var task := s.starts.tasks[t];
      if (task.phase.PortCheck? && (bindable || task.isRestart)) || (task.phase.PortRecheck? && bindable) {
        AfterPortLeaves(s, s, t, world);
      } else if task.phase.PortCheck? && Registered(s, task.svc.name) && IsRunning(s, Entry(s, task.svc.name)) {
        var st := Entry(s, task.svc.name);
        SettleLeaves(s, s, t, LeftAlone);
        if st.intentionalStop {
          Leaves(s, SetTask(s, t, task.(phase := ExitWait(st.proc.value, s.clock + STOP_GRACE_MS))));
        }
      } else if task.phase.PortCheck? || task.phase.PortRecheck? {
        PortTakenLeaves(s, t);
      }
    }
  }

  lemma WaitAndBuildLeave(s: Supervisor, t: TaskId, ok: bool, world: World)
    requires Inv(s)
    ensures LeavesReadiness(s, OnExitWaitOver(s, t)) && LeavesReadiness(s, OnBuildResult(s, t, ok, world))
  {
    Same(s);
    Begins(s);
    if InFlight(s, t) {
      Leaves(s, SetTask(s, t, s.starts.tasks[t].(phase := PortRecheck)));
      if ok { AfterBuildLeaves(s, s, t, world); } else { FailLeaves(s, s, t); }
    }
  }

  lemma RestartTimerLeaves(s: Supervisor, timer: TimerId, world: World)
    requires Inv(s)
    ensures LeavesReadiness(s, OnRestartTimer(s, timer, world))
  {
    Same(s);
    Begins(s);
    if RestartTimerDue(s, timer) {
      var svc := s.queue.timers[timer].svc;
      var s1 := s.(queue := s.queue.(timers := s.queue.timers - {timer}, pending := s.queue.pending - {svc.name}));
      forall m ensures PendingOk(s1.queue, m) { assert PendingOk(s.queue, m); }
      forall k ensures TimerOk(s1.queue, k) { assert TimerOk(s.queue, k); }
      Leaves(s, s1);
      StartLeaves(s, s1, svc, true, true, world);
    }
  }

  lemma HandOverLeaves(s: Supervisor, q: nat, world: World)
    requires Inv(s)
    ensures LeavesReadiness(s, OnInstallDone(s, q, world)) && LeavesReadiness(s, OnRestartResume(s, q, world))
  {
    Same(s);
    Begins(s);
    if q < |s.requests| {
      var req := s.requests[q];
      AdvanceRequest(s, q, Handed);
      var s1 := s.(requests := s.requests[q := req.(phase := Handed)]);
      Leaves(s, s1);
      if req.row < |s.rows| {
        StartLeaves(s, s1, s.rows[req.row].svc, false, false, world);
        StartLeaves(s, s1, s.rows[req.row].svc, true, false, world);
      }
    }
  }

  // ---------------------------------------------------------------- everything else that writes no readiness

  lemma StopLeaves(s: Supervisor, n: Name, kill: bool)
    ensures LeavesReadiness(s, StopService(s, n)) && StopService(s, n).windows == s.windows
    ensures LeavesReadiness(s, SignalService(s, n, kill)) && SignalService(s, n, kill).windows == s.windows
    ensures LeavesReadiness(s, CancelRestart(s, n)) && CancelRestart(s, n).windows == s.windows
  {
    Leaves(s, StopService(s, n));
    Leaves(s, SignalService(s, n, kill));
    Leaves(s, CancelRestart(s, n));
  }

  lemma AfterDrainLeaves(s: Supervisor, q: nat)
    requires q < |s.requests|
    ensures LeavesReadiness(s, AfterDrain(s, q)) && AfterDrain(s, q).windows == s.windows
  {
    Leaves(s, AfterDrain(s, q));
  }

  lemma RequestsLeave(s: Supervisor, n: Name, q: nat)
    ensures LeavesReadiness(s, OnStartService(s, n)) && OnStartService(s, n).windows == s.windows
    ensures LeavesReadiness(s, OnDrainOver(s, q)) && OnDrainOver(s, q).windows == s.windows
  {
    Same(s);
    if q < |s.requests| {
      AfterDrainLeaves(s, q);
      Leaves(s, s.(requests := s.requests[q := s.requests[q].(phase := Handed)]));
    }
    if Registered(s, n) && Entry(s, n).remote.None? {
      var s1 := s.(requests := s.requests + [Request(n, s.state[n], Installing)]);
      Leaves(s, s1);
      AfterDrainLeaves(s1, |s.requests|);
      SameWindowsTransitive(s, s1, AfterDrain(s1, |s.requests|));
      hide AfterDrain;
      if IsRunning(s, Entry(s, n)) { Leaves(s, OnStartService(s, n)); }
    }
  }

  lemma RestartServiceLeaves(s: Supervisor, n: Name)
    ensures LeavesReadiness(s, OnRestartService(s, n)) && OnRestartService(s, n).windows == s.windows
    ensures LeavesReadiness(s, OnIdleStop(s, n)) && OnIdleStop(s, n).windows == s.windows
  {
    Same(s);
    if Registered(s, n) {
      StopLeaves(s, n, false);
      var s1 := StopService(s, n);
      hide StopService;
      Leaves(s1, OnRestartService(s, n));
      SameWindowsTransitive(s, s1, OnRestartService(s, n));
      if Entry(s, n).remote.None? {
        Leaves(s1, OnIdleStop(s, n));
        SameWindowsTransitive(s, s1, OnIdleStop(s, n));
      }
    }
  }

  lemma CleanupLeaves(s: Supervisor, graceMs: nat, k: nat)
    ensures LeavesReadiness(s, OnCleanup(s, graceMs)) && OnCleanup(s, graceMs).windows == s.windows
    ensures LeavesReadiness(s, OnGraceOver(s, k)) && OnGraceOver(s, k).windows == s.windows
  {
    Leaves(s, OnCleanup(s, graceMs));
    Leaves(s, OnGraceOver(s, k));
  }

  lemma PollBeginLeaves(s: Supervisor, n: Name)
    ensures LeavesReadiness(s, OnPollBegin(s, n)) && OnPollBegin(s, n).windows == s.windows
  {
    Leaves(s, OnPollBegin(s, n));
  }

  lemma RegistrationsLeave(s: Supervisor, svc: ServiceConfig, env: string)
    ensures LeavesReadiness(s, OnRegisterLazy(s, svc)) && OnRegisterLazy(s, svc).windows == s.windows
    ensures LeavesReadiness(s, OnRegisterRemote(s, svc, env)) && OnRegisterRemote(s, svc, env).windows == s.windows
  {
    Leaves(s, OnRegisterLazy(s, svc));
    Leaves(s, OnRegisterRemote(s, svc, env));
  }

  lemma BootLeaves(s: Supervisor, n: Name)
    ensures LeavesReadiness(s, OnBootMarksRunning(s, n)) && OnBootMarksRunning(s, n).windows == s.windows
  {
    Leaves(s, OnBootMarksRunning(s, n));
  }

  // ---------------------------------------------------------------- which timers a start disarms

  /** The only timer that goes is the one held under the name. */
  ghost predicate DisarmsOnly(s: Supervisor, s': Supervisor, n: Name) {
    forall r: RowId :: r in s.windows.due && r !in s'.windows.due ==> n in s.windows.owner && s.windows.owner[n] == r
  }

  lemma BuildDisarmsNothing(s: Supervisor, t: TaskId, world: World)
    requires t < |s.starts.tasks|
    ensures s.windows.due.Keys <= AfterBuild(s, t, world).windows.due.Keys
  {}

  lemma PortDisarms(s: Supervisor, t: TaskId, world: World)
    requires t < |s.starts.tasks|
    ensures DisarmsOnly(s, AfterPort(s, t, world), s.starts.tasks[t].svc.name)
    ensures DisarmsOnly(s, PortTaken(s, t), s.starts.tasks[t].svc.name)
  {
    var s1 := ClearStartupTimer(s, s.starts.tasks[t].svc.name, None);
    BuildDisarmsNothing(s1, t, world);
  }

  lemma StartDisarms(s: Supervisor, svc: ServiceConfig, isRestart: bool, auto: bool, world: World)
    ensures DisarmsOnly(s, Start(s, svc, isRestart, auto, world), svc.name)
  {
    if svc.name !in s.starts.starting {
      var task := StartTask(svc, isRestart, Generation(s, svc.name), auto, PortCheck);
      PortDisarms(Enter(s, task), |s.starts.tasks|, world);
    }
  }

  /** The name of the start that the event begins or carries on. */
  function StartedName(s: Supervisor, e: Event): Option<Name> {
    if e.StartCall? then Some(e.svc.name)
    else if e.PortResult? && e.task < |s.starts.tasks| then Some(s.starts.tasks[e.task].svc.name)
    else if e.RestartTimerFires? && e.timer in s.queue.timers then Some(s.queue.timers[e.timer].svc.name)
    else if (e.InstallDone? || e.RestartResume?) && e.request < |s.requests| then Some(s.requests[e.request].name)
    else None
  }

  lemma StartedNameIs(s: Supervisor, e: Event)
    ensures e.StartCall? ==> StartedName(s, e) == Some(e.svc.name)
    ensures e.PortResult? && e.task < |s.starts.tasks| ==> StartedName(s, e) == Some(s.starts.tasks[e.task].svc.name)
    ensures e.RestartTimerFires? && e.timer in s.queue.timers ==>
          StartedName(s, e) == Some(s.queue.timers[e.timer].svc.name)
    ensures (e.InstallDone? || e.RestartResume?) && e.request < |s.requests| ==>
              StartedName(s, e) == Some(s.requests[e.request].name)
  {}

  lemma PortResultDisarms(s: Supervisor, t: TaskId, bindable: bool, world: World)
    ensures t < |s.starts.tasks| ==> DisarmsOnly(s, OnPortResult(s, t, bindable, world), s.starts.tasks[t].svc.name)
    ensures t >= |s.starts.tasks| ==> OnPortResult(s, t, bindable, world) == s
  {
    if InFlight(s, t) { PortDisarms(s, t, world); }
    hide AfterPort, PortTaken;
  }

  lemma BuildResultDisarms(s: Supervisor, t: TaskId, ok: bool, world: World)
    ensures s.windows.due.Keys <= OnBuildResult(s, t, ok, world).windows.due.Keys
  {
    if InFlight(s, t) { BuildDisarmsNothing(s, t, world); }
  }

  lemma WaitDisarmsNothing(s: Supervisor, t: TaskId)
    ensures OnExitWaitOver(s, t).windows == s.windows
  {}

  lemma RestartTimerDisarms(s: Supervisor, timer: TimerId, world: World)
    ensures timer in s.queue.timers ==> DisarmsOnly(s, OnRestartTimer(s, timer, world), s.queue.timers[timer].svc.name)
    ensures timer !in s.queue.timers ==> OnRestartTimer(s, timer, world) == s
  {
    if RestartTimerDue(s, timer) {
      var svc := s.queue.timers[timer].svc;
      StartDisarms(s.(queue := s.queue.(timers := s.queue.timers - {timer}, pending := s.queue.pending - {svc.name})),
                   svc, true, true, world);
    }
  }

  lemma StartEventDisarms(s: Supervisor, e: Event)
    requires Inv(s)
    requires e.StartCall? || e.PortResult? || e.ExitWaitOver? || e.BuildResult? || e.RestartTimerFires?
          || e.InstallDone? || e.RestartResume?
    ensures s.windows.due.Keys <= Step(s, e).windows.due.Keys
         || (StartedName(s, e).Some? && DisarmsOnly(s, Step(s, e), StartedName(s, e).value))
  {
    hide *;
    StartedNameIs(s, e);
    StepIs(s, e);
    match e
    case StartCall(svc, isRestart, world) => StartDisarms(s, svc, isRestart, false, world);
    case PortResult(t, bindable, world) => PortResultDisarms(s, t, bindable, world);
    case ExitWaitOver(t) => WaitDisarmsNothing(s, t);
    case BuildResult(t, ok, world) => BuildResultDisarms(s, t, ok, world);
    case RestartTimerFires(timer, world) => RestartTimerDisarms(s, timer, world);
    case InstallDone(q, world) => HandOverDisarms(s, q, world);
    case RestartResume(q, world) => HandOverDisarms(s, q, world);
  }

  lemma HandOverDisarms(s: Supervisor, q: nat, world: World)
    requires Inv(s)
    ensures q < |s.requests| ==>
              && DisarmsOnly(s, OnInstallDone(s, q, world), s.requests[q].name)
              && DisarmsOnly(s, OnRestartResume(s, q, world), s.requests[q].name)
    ensures q >= |s.requests| ==> OnInstallDone(s, q, world) == s && OnRestartResume(s, q, world) == s
  {
    if q < |s.requests| {
      var req := s.requests[q];
      assert RequestOk(s.rows, s.requests, q);
      var s1 := s.(requests := s.requests[q := req.(phase := Handed)]);
      StartDisarms(s1, s.rows[req.row].svc, false, false, world);
      StartDisarms(s1, s.rows[req.row].svc, true, false, world);
    }
  }

  // ---------------------------------------------------------------- the steps that write readiness

  /** How the readiness of an announcing state object may change in a step. */
  predicate ReadinessMoves(s: Supervisor, e: Event, s': Supervisor, r: RowId) {
    r < |s.rows| ==>
      && r < |s'.rows|
      && (Announces(s, r) && !WrittenFromOutside(s, e, r) ==>
            && Announces(s', r) && s'.rows[r].svc == s.rows[r].svc
            && (IsUp(s', r) ==>
                  || IsUp(s, r) || OwnReadyLine(s, e, r) || OnceSays(s, e, r)
                  || (e.PollResult? && IsTimedOut(s, r)))
            && (IsTimedOut(s', r) ==> IsTimedOut(s, r) || OwnWindowEnds(s, e, r)))
  }

  /** How an armed startup timer may go. */
  predicate WindowMoves(s: Supervisor, e: Event, s': Supervisor, r: RowId) {
    r in s.windows.due && r !in s'.windows.due ==>
      || OwnWindowEnds(s, e, r)
      || OwnReadyLine(s, e, r)
      || (e.Close? && e.child < |s.children| && s.children[e.child].row == r)
      || (r < |s.rows| && StartedName(s, e) == Some(s.rows[r].svc.name))
  }

  lemma LeavingMoves(s: Supervisor, e: Event, r: RowId)
    requires LeavesReadiness(s, Step(s, e))
    ensures ReadinessMoves(s, e, Step(s, e), r) && WindowKept(s, Step(s, e), r)
  {
    hide Step;
    assert RowKept(s, Step(s, e), r);
  }

  lemma StartStepsLeave(s: Supervisor, e: Event)
    requires Inv(s)
    requires e.StartCall? || e.PortResult? || e.ExitWaitOver? || e.BuildResult? || e.RestartTimerFires?
          || e.InstallDone? || e.RestartResume?
    ensures LeavesReadiness(s, Step(s, e))
  {
    Begins(s);
    hide *;
    StepIs(s, e);
    if e.StartCall? { StartLeaves(s, s, e.svc, e.isRestart, false, e.world); }
    else if e.PortResult? { PortResultLeaves(s, e.task, e.bindable, e.world); }
    else if e.ExitWaitOver? { WaitAndBuildLeave(s, e.task, true, World(true, true)); }
    else if e.BuildResult? { WaitAndBuildLeave(s, e.task, e.ok, e.world); }
    else if e.RestartTimerFires? { RestartTimerLeaves(s, e.timer, e.world); }
    else { HandOverLeaves(s, e.request, e.world); }
  }

  lemma StartStepsMove(s: Supervisor, e: Event, r: RowId)
    requires Inv(s)
    requires e.StartCall? || e.PortResult? || e.ExitWaitOver? || e.BuildResult? || e.RestartTimerFires?
          || e.InstallDone? || e.RestartResume?
    ensures LeavesReadiness(s, Step(s, e)) && WindowMoves(s, e, Step(s, e), r)
  {
    hide Step, LeavesReadiness, StartedName;
    StartStepsLeave(s, e);
    StartEventDisarms(s, e);
    assert DueOk(s.rows, s.windows, r);
    assert StartedName(s, e).Some? ==> OwnerOk(s.rows, s.windows, StartedName(s, e).value);
  }

  /** Steps that leave readiness and startup windows alone. */
  lemma QuietStepsMove(s: Supervisor, e: Event)
    requires e.StopCall? || e.ForceStopCall? || e.CancelCall? || e.StartServiceCall? || e.DrainOver?
          || e.RestartServiceCall? || e.CleanupCall? || e.GraceOver? || e.IdleStopCall? || e.PollBegin?
          || e.RegisterLazyCall? || e.RegisterRemoteCall? || e.BootMarksRunning?
    ensures LeavesReadiness(s, Step(s, e)) && Step(s, e).windows == s.windows
  {
    hide *;
    StepIs(s, e);
    match e
    case StopCall(n) => StopLeaves(s, n, false);
    case ForceStopCall(n) => StopLeaves(s, n, true);
    case CancelCall(n) => StopLeaves(s, n, false);
    case StartServiceCall(n) => RequestsLeave(s, n, 0);
    case DrainOver(q) => RequestsLeave(s, "", q);
    case RestartServiceCall(n) => RestartServiceLeaves(s, n);
    case CleanupCall(graceMs) => CleanupLeaves(s, graceMs, 0);
    case GraceOver(k) => CleanupLeaves(s, 0, k);
    case IdleStopCall(n) => RestartServiceLeaves(s, n);
    case PollBegin(n) => PollBeginLeaves(s, n);
    case RegisterLazyCall(svc) => RegistrationsLeave(s, svc, "");
    case RegisterRemoteCall(svc, env) => RegistrationsLeave(s, svc, env);
    case BootMarksRunning(n) => BootLeaves(s, n);
  }

  lemma LineMoves(s: Supervisor, p: ChildId, matches: bool, r: RowId)
    requires Inv(s)
    ensures var s' := OnLine(s, p, matches); var e := Line(p, matches);
            ReadinessMoves(s, e, s', r) && WindowMoves(s, e, s', r) && WindowKept(s, s', r) && s'.tallies == s.tallies
            && SamePromises(s, s')
  {
    if p < |s.children| && s.children[p].row < |s.rows| {
      assert ChildOk(s.rows, s.children, s.procs, p);
      assert OwnerOk(s.rows, s.windows, s.children[p].svc.name);
    }
  }

  lemma CloseWrites(s: Supervisor, p: ChildId, cleanExit: bool)
    requires p < |s.children| && !s.children[p].exited && s.children[p].row < |s.rows|
    ensures var s', r := OnClose(s, p, cleanExit), s.children[p].row;
            && s'.tallies == s.tallies && |s'.rows| == |s.rows| && s'.rows == s.rows[r := s'.rows[r]]
            && SamePromises(s, s')
            && s'.windows == Disarmed(s.windows, s.children[p].svc.name, Some(r))
            && s'.rows[r].svc == s.rows[r].svc && s'.rows[r].remote == s.rows[r].remote
            && (s'.rows[r].health.Up? ==> s.rows[r].health.Up?)
            && (s'.rows[r].status.TimedOut? ==> s.rows[r].status.TimedOut?)
  {
    var s1 := ChildGone(s, p);
    assert s1.tallies == s.tallies && SamePromises(s, s1)
           && s1.windows == Disarmed(s.windows, s.children[p].svc.name, Some(s.children[p].row));
    hide ChildGone, Disarmed;
  }

  lemma CloseMoves(s: Supervisor, p: ChildId, cleanExit: bool, r: RowId)
    ensures var s' := OnClose(s, p, cleanExit); var e := Close(p, cleanExit);
            ReadinessMoves(s, e, s', r) && WindowMoves(s, e, s', r) && WindowKept(s, s', r) && s'.tallies == s.tallies
            && SamePromises(s, s')
  {
    if p < |s.children| && !s.children[p].exited && s.children[p].row < |s.rows| {
      CloseWrites(s, p, cleanExit);
      hide OnClose;
    }
  }

  lemma TimerMoves(s: Supervisor, x: RowId, r: RowId)
    requires Inv(s)
    ensures var s', e := OnStartupTimer(s, x), StartupTimerFires(x);
            ReadinessMoves(s, e, s', r) && WindowMoves(s, e, s', r) && WindowKept(s, s', r) && s'.tallies == s.tallies
            && SamePromises(s, s')
  {}

  lemma PollMoves(s: Supervisor, k: nat, ok: bool, r: RowId)
    requires Inv(s)
    ensures var s', e := OnPollResult(s, k, ok), PollResult(k, ok);
            ReadinessMoves(s, e, s', r) && WindowMoves(s, e, s', r) && WindowKept(s, s', r) && SamePromises(s, s')
  {
    if Polling(s, k) { assert PollOk(s.rows, s.polls, k); }
  }

  lemma RemoveMoves(s: Supervisor, n: Name, r: RowId)
    ensures var s', e := RemoveService(s, n), RemoveCall(n);
            ReadinessMoves(s, e, s', r) && WindowMoves(s, e, s', r) && WindowKept(s, s', r) && SamePromises(s, s')
    ensures RemoveService(s, n).tallies.failures == if Registered(s, n) then s.tallies.failures - {n}
                                                    else s.tallies.failures
  {}

  lemma CommitsMove(s: Supervisor, x: RowId, svc: ServiceConfig, env: string, r: RowId)
    ensures var s', e := OnRemoteCommit(s, x, svc, env), RemoteCommit(x, svc, env);
            ReadinessMoves(s, e, s', r) && s'.windows == s.windows && s'.tallies == s.tallies && SamePromises(s, s')
    ensures var s', e := OnLocalCommit(s, x, svc), LocalCommit(x, svc);
            ReadinessMoves(s, e, s', r) && s'.windows == s.windows && s'.tallies == s.tallies && SamePromises(s, s')
  {}

  lemma TrivialMoves(s: Supervisor, n: Name, ms: nat, r: RowId)
    ensures var s' := OnTick(s, ms);
            ReadinessMoves(s, Tick(ms), s', r) && s'.windows == s.windows && s'.tallies == s.tallies
            && SamePromises(s, s')
    ensures var s' := OnForgetHealth(s, n);
            ReadinessMoves(s, ForgetHealthCall(n), s', r) && s'.windows == s.windows && SamePromises(s, s')
            && s'.tallies.failures == s.tallies.failures - {n}
  {}

  lemma ProbeMoves(s: Supervisor, n: Name, reachable: bool, r: RowId)
    ensures var s', e := OnRemoteProbe(s, n, reachable), RemoteProbe(n, reachable);
            ReadinessMoves(s, e, s', r) && s'.windows == s.windows && s'.tallies == s.tallies && SamePromises(s, s')
  {}

  lemma WakeBeginMoves(s: Supervisor, svc: ServiceConfig, r: RowId)
    ensures var s' := OnWakeBegin(s, svc);
            ReadinessMoves(s, WakeBegin(svc), s', r) && s'.windows == s.windows && s'.tallies == s.tallies
  {}

  lemma WakeEndMoves(s: Supervisor, w: nat, reachable: bool, r: RowId)
    ensures var s', e := OnWakeSettles(s, w, reachable), WakeSettles(w, reachable);
            ReadinessMoves(s, e, s', r) && s'.windows == s.windows && s'.tallies == s.tallies
    ensures var s', e := OnWakeGivesUp(s, w), WakeGivesUp(w);
            ReadinessMoves(s, e, s', r) && s'.windows == s.windows && s'.tallies == s.tallies
  {
    if Waking(s, w) { AwakeWrites(OnWakeGivesUp(s, w), s.wakes[w].name, reachable, s.wakes[w].suspended); }
    hide Awake;
  }

  lemma SettlingMoves(s: Supervisor, svc: ServiceConfig, reachable: bool, r: RowId)
    ensures var s', e := OnOnceSettles(s, svc, reachable), OnceSettles(svc, reachable);
            ReadinessMoves(s, e, s', r) && s'.windows == s.windows && s'.tallies == s.tallies
  {
    hide MeetsBar;
  }

  lemma ReportMoves(s: Supervisor, k: nat, r: RowId)
    ensures var s', e := OnOnceReports(s, k), OnceReports(k);
            ReadinessMoves(s, e, s', r) && s'.windows == s.windows && s'.tallies == s.tallies
  {
    hide Awake;
    if Reporting(s, k) {
      AwakeWrites(s.(reports := s.reports[k := s.reports[k].(open := false)]), s.reports[k].name, true, true);
    }
  }

  lemma OutsideMoves(s: Supervisor, e: Event, r: RowId)
    requires e.RemoteCommit? || e.LocalCommit? || e.RemoteProbe? || e.Tick? || e.ForgetHealthCall? || Promises(e)
    ensures ReadinessMoves(s, e, Step(s, e), r) && Step(s, e).windows == s.windows
    ensures !e.ForgetHealthCall? ==> Step(s, e).tallies == s.tallies
    ensures e.ForgetHealthCall? ==> Step(s, e).tallies.failures == s.tallies.failures - {e.name}
    ensures !Promises(e) ==> SamePromises(s, Step(s, e))
  {
    hide *;
    PromiseEvents(e);
    StepIs(s, e);
    match e
    case WakeBegin(svc) => WakeBeginMoves(s, svc, r);
    case WakeSettles(w, reachable) => WakeEndMoves(s, w, reachable, r);
    case WakeGivesUp(w) => WakeEndMoves(s, w, true, r);
    case OnceSettles(svc, reachable) => SettlingMoves(s, svc, reachable, r);
    case OnceReports(k) => ReportMoves(s, k, r);
    case RemoteProbe(n, reachable) => ProbeMoves(s, n, reachable, r);
    case RemoteCommit(x, svc, env) => CommitsMove(s, x, svc, env, r);
    case LocalCommit(x, svc) => CommitsMove(s, x, svc, "", r);
    case Tick(ms) => TrivialMoves(s, "", ms, r);
    case ForgetHealthCall(n) => TrivialMoves(s, n, 0, r);
  }

  /** Every step moves readiness and startup windows as described above. */
  lemma StepReadiness(s: Supervisor, e: Event, r: RowId)
    requires Inv(s)
    ensures ReadinessMoves(s, e, Step(s, e), r) && WindowMoves(s, e, Step(s, e), r) && WindowKept(s, Step(s, e), r)
  {
    hide *;
    PromiseEvents(e);
    StepIs(s, e);
    if e.Line? { LineMoves(s, e.child, e.matches, r); }
    else if e.Close? { CloseMoves(s, e.child, e.cleanExit, r); }
    else if e.StartupTimerFires? { TimerMoves(s, e.row, r); }
    else if e.PollResult? { PollMoves(s, e.poll, e.ok, r); }
    else if e.RemoveCall? { RemoveMoves(s, e.name, r); }
    else if e.StartCall? || e.PortResult? || e.ExitWaitOver? || e.BuildResult? || e.RestartTimerFires?
        || e.InstallDone? || e.RestartResume? {
      StartStepsMove(s, e, r);
      LeavingMoves(s, e, r);
    } else if e.RemoteCommit? || e.LocalCommit? || e.RemoteProbe? || e.Tick? || e.ForgetHealthCall? || Promises(e) {
      OutsideMoves(s, e, r);
      SameWindowsMove(s, e, r);
    } else {
      QuietStepsMove(s, e);
      LeavingMoves(s, e, r);
      SameWindowsMove(s, e, r);
    }
  }

  lemma SameWindowsMove(s: Supervisor, e: Event, r: RowId)
    requires Step(s, e).windows == s.windows
    ensures WindowMoves(s, e, Step(s, e), r) && WindowKept(s, Step(s, e), r)
  {
    hide Step;
  }

  // ---------------------------------------------------------------- becoming ready

  /** No wake and no switch writes the state object during the run. */
  predicate KeptLocal(s: Supervisor, events: seq<Event>, r: RowId)
    decreases |events|
  {
    events != [] ==> !WrittenFromOutside(s, events[0], r) && KeptLocal(Step(s, events[0]), events[1..], r)
  }

  /** The process of the state object printed its ready line, or its own startup window ended. */
  predicate HadItsSay(s: Supervisor, events: seq<Event>, r: RowId)
    decreases |events|
  {
    events != [] && (OwnReadyLine(s, events[0], r) || OwnWindowEnds(s, events[0], r)
                     || HadItsSay(Step(s, events[0]), events[1..], r))
  }

  /** A `--once` run reported the service ready while the state object was registered. */
  predicate ReportedByOnce(s: Supervisor, events: seq<Event>, r: RowId)
    decreases |events|
  {
    events != [] && (OnceSays(s, events[0], r) || ReportedByOnce(Step(s, events[0]), events[1..], r))
  }

  lemma {:induction false} RunReadiness(s: Supervisor, events: seq<Event>, r: RowId)
    requires Inv(s) && Announces(s, r) && KeptLocal(s, events, r)
    ensures var f := Run(s, events);
            && (IsUp(f, r) ==>
              IsUp(s, r) || IsTimedOut(s, r) || HadItsSay(s, events, r) || ReportedByOnce(s, events, r))
            && (IsTimedOut(f, r) ==> IsTimedOut(s, r) || HadItsSay(s, events, r))
    decreases |events|
  {
    if events != [] {
      hide Inv, Step, OwnReadyLine, OwnWindowEnds, WrittenFromOutside, OnceSays;
      StepKeeps(s, events[0]);
      StepReadiness(s, events[0], r);
      RunReadiness(Step(s, events[0]), events[1..], r);
    }
  }

  /** An always-on service with a ready pattern is up only after a matching line of that very
   *  process, after its own startup window has ended, or because a `--once` run said so. */
  lemma ReadyOnlyByItsOwnWord(s0: Supervisor, before: seq<Event>, events: seq<Event>, r: RowId)
    requires Initial(s0)
    requires var s := Run(s0, before);
             Announces(s, r) && !IsUp(s, r) && !IsTimedOut(s, r) && KeptLocal(s, events, r)
    ensures var s := Run(s0, before);
            IsUp(Run(s, events), r) ==> HadItsSay(s, events, r) || ReportedByOnce(s, events, r)
  {
    ReachableInv(s0, before);
    RunReadiness(Run(s0, before), events, r);
  }

  lemma LineSays(s: Supervisor, p: ChildId, matches: bool, r: RowId)
    requires r < |s.rows| && OwnReadyLine(s, Line(p, matches), r)
    ensures IsUp(OnLine(s, p, matches), r)
  {}

  lemma ReportMarksUp(s: Supervisor, k: nat, r: RowId)
    requires Inv(s) && OnceSays(s, OnceReports(k), r)
    ensures IsUp(OnOnceReports(s, k), r)
  {
    assert StateOk(s.rows, s.state, s.reports[k].name);
  }

  /** The exact exception: in its own window an announcing service that nobody wakes or switches comes
   *  up with its own line, and without one exactly when a `--once` run reports it. */
  lemma UpInItsWindow(s0: Supervisor, before: seq<Event>, e: Event, r: RowId)
    requires Initial(s0)
    requires var s := Run(s0, before);
             Announces(s, r) && !IsUp(s, r) && !IsTimedOut(s, r) && !WrittenFromOutside(s, e, r)
    ensures var s := Run(s0, before);
            IsUp(Step(s, e), r) <==> OwnReadyLine(s, e, r) || OnceSays(s, e, r)
  {
    var s := Run(s0, before);
    ReachableInv(s0, before);
    StepReadiness(s, e, r);
    hide Step, Inv, Run;
    StepIs(s, e);
    if OwnReadyLine(s, e, r) { LineSays(s, e.child, e.matches, r); }
    if OnceSays(s, e, r) { ReportMarksUp(s, e.report, r); }
  }

  // ---------------------------------------------------------------- what a `--once` boot may say of a web

  /** No `--once` boot has found the service ready while this state object was registered. */
  ghost predicate Unreported(s: Supervisor, r: RowId) {
    forall k :: 0 <= k < |s.reports| && s.reports[k].open ==> s.reports[k].row != Some(r)
  }

  /** The service is reported on what was found of another state object, one that this one replaced. */
  predicate SaidOfAnother(s: Supervisor, events: seq<Event>, r: RowId)
    decreases |events|
  {
    events != [] && ((OnceSays(s, events[0], r) && s.reports[events[0].report].row != Some(r))
                     || SaidOfAnother(Step(s, events[0]), events[1..], r))
  }

  /** A web that announces itself and has not had its say. */
  predicate Silent(s: Supervisor, r: RowId) {
    Announces(s, r) && !s.rows[r].svc.isApi && !IsUp(s, r) && !IsTimedOut(s, r)
  }

  /** What becomes of the reports: old ones may close, and a new one is of the registered state object. */
  ghost predicate ReportsGoOn(s: Supervisor, e: Event, s': Supervisor) {
    && |s.reports| <= |s'.reports| && |s'.rows| == |s.rows|
    && forall k :: 0 <= k < |s'.reports| ==>
         if k < |s.reports| then s'.reports[k].row == s.reports[k].row && (s'.reports[k].open ==> s.reports[k].open)
         else && e.OnceSettles? && MeetsBar(s, e.svc, e.reachable)
              && s'.reports[k].row == if Registered(s, e.svc.name) then Some(s.state[e.svc.name]) else None
  }

  lemma SettlingGoesOn(s: Supervisor, svc: ServiceConfig, reachable: bool)
    ensures ReportsGoOn(s, OnceSettles(svc, reachable), OnOnceSettles(s, svc, reachable))
  {
    hide MeetsBar, Registered;
  }

  lemma ReportGoesOn(s: Supervisor, k: nat)
    ensures ReportsGoOn(s, OnceReports(k), OnOnceReports(s, k))
  {
    hide Awake, MeetsBar, Registered;
    if Reporting(s, k) {
      AwakeWrites(s.(reports := s.reports[k := s.reports[k].(open := false)]), s.reports[k].name, true, true);
    }
  }

  lemma WakesLeaveReports(s: Supervisor, e: Event)
    requires e.WakeBegin? || e.WakeSettles? || e.WakeGivesUp?
    ensures ReportsGoOn(s, e, Step(s, e))
  {
    hide Step, Written, MeetsBar, Registered;
    WakesAre(s, e);
    WrittenRows(s, e);
  }

  lemma WrittenRows(s: Supervisor, e: Event)
    ensures |Written(s, e).rows| == |s.rows|
  {
    hide Awake;
    if e.WakeSettles? && Waking(s, e.wake) {
      AwakeWrites(s, s.wakes[e.wake].name, e.reachable, s.wakes[e.wake].suspended);
    }
    if e.OnceReports? && Reporting(s, e.report) { AwakeWrites(s, s.reports[e.report].name, true, true); }
  }

  lemma PromisesGoOn(s: Supervisor, e: Event)
    requires Promises(e)
    ensures ReportsGoOn(s, e, Step(s, e))
  {
    PromiseEvents(e);
    hide *;
    StepIs(s, e);
    if e.OnceSettles? { SettlingGoesOn(s, e.svc, e.reachable); }
    else if e.OnceReports? { ReportGoesOn(s, e.report); }
    else { WakesLeaveReports(s, e); }
  }

  /** Of a silent web nothing is found. */
  lemma SilentMeetsNoBar(s: Supervisor, svc: ServiceConfig, reachable: bool, r: RowId)
    requires Silent(s, r) && Registered(s, svc.name) && s.state[svc.name] == r
    ensures !MeetsBar(s, svc, reachable)
  {}

  lemma PromisesStay(s: Supervisor, e: Event)
    requires Inv(s) && !Promises(e)
    ensures SamePromises(s, Step(s, e))
  {
    hide *;
    StepIs(s, e);
    if e.PollResult? { PollMoves(s, e.poll, e.ok, 0); }
    else if e.RemoveCall? { RemoveMoves(s, e.name, 0); }
    else { FailuresMove(s, e); }
  }

  lemma StaysUnreported(s: Supervisor, e: Event, r: RowId)
    requires Inv(s) && Silent(s, r) && Unreported(s, r)
    ensures Unreported(Step(s, e), r)
  {
    hide Step, Inv, Silent, Promises, MeetsBar;
    if Promises(e) {
      PromisesGoOn(s, e);
      if e.OnceSettles? && Registered(s, e.svc.name) && s.state[e.svc.name] == r {
        SilentMeetsNoBar(s, e.svc, e.reachable, r);
      }
    } else {
      PromisesStay(s, e);
    }
  }

  lemma {:induction false} RunNeedsAWord(s: Supervisor, events: seq<Event>, r: RowId)
    requires Inv(s) && Silent(s, r) && Unreported(s, r) && KeptLocal(s, events, r)
    ensures IsUp(Run(s, events), r) ==> HadItsSay(s, events, r) || SaidOfAnother(s, events, r)
    decreases |events|
  {
    if events != [] {
      hide Inv, Step, OwnReadyLine, OwnWindowEnds, WrittenFromOutside;
      StepKeeps(s, events[0]);
      StepReadiness(s, events[0], r);
      StaysUnreported(s, events[0], r);
      if Silent(Step(s, events[0]), r) { RunNeedsAWord(Step(s, events[0]), events[1..], r); }
    }
  }

  /** Reports speak of state objects there are. */
  ghost predicate ReportsKnown(s: Supervisor) {
    forall k :: 0 <= k < |s.reports| && s.reports[k].row.Some? ==> s.reports[k].row.value < |s.rows|
  }

  lemma PromiseKnown(s: Supervisor, e: Event)
    requires Promises(e) && ReportsKnown(s)
    ensures ReportsKnown(Step(s, e))
  {
    hide Step, Promises, MeetsBar;
    PromisesGoOn(s, e);
  }

  lemma RowsGrow(s: Supervisor, e: Event)
    requires Inv(s)
    ensures |s.rows| <= |Step(s, e).rows|
  {
    if |s.rows| > 0 {
      StepReadiness(s, e, |s.rows| - 1);
      hide Step;
    }
  }

  lemma {:induction false} RunReportsKnown(s: Supervisor, events: seq<Event>)
    requires Inv(s) && ReportsKnown(s)
    ensures Inv(Run(s, events)) && ReportsKnown(Run(s, events))
    decreases |events|
  {
    if events != [] {
      var s1 := Step(s, events[0]);
      hide Inv, Step, Promises;
      StepKeeps(s, events[0]);
      RowsGrow(s, events[0]);
      if Promises(events[0]) { PromiseKnown(s, events[0]); } else { PromisesStay(s, events[0]); }
      RunReportsKnown(s1, events[1..]);
    }
  }

  lemma NewRowUnreported(s: Supervisor, e: Event, r: RowId)
    requires Inv(s) && ReportsKnown(s) && |s.rows| <= r
    ensures Unreported(Step(s, e), r)
  {
    hide Step, Inv, Promises, MeetsBar;
    if Promises(e) { PromisesGoOn(s, e); } else { PromisesStay(s, e); }
  }

  lemma ReachableKnown(s0: Supervisor, events: seq<Event>)
    requires Initial(s0)
    ensures Inv(Run(s0, events)) && ReportsKnown(Run(s0, events))
  {
    assert Inv(s0) && ReportsKnown(s0);
    hide Run, Inv, Initial;
    RunReportsKnown(s0, events);
  }

  /** From its spawn on a web with a ready pattern that nobody switches or wakes comes up only after its
   *  own word or the end of its own window, or because a `--once` boot says of it what it had found of a
   *  state object that this one has replaced. */
  lemma WebNeedsAWord(s0: Supervisor, before: seq<Event>, e: Event, events: seq<Event>, r: RowId)
    requires Initial(s0) && |Run(s0, before).rows| <= r
    requires var s := Step(Run(s0, before), e);
             Silent(s, r) && KeptLocal(s, events, r)
    ensures var s := Step(Run(s0, before), e);
            IsUp(Run(s, events), r) ==> HadItsSay(s, events, r) || SaidOfAnother(s, events, r)
  {
    hide *;
    ReachableKnown(s0, before);
    StepKeeps(Run(s0, before), e);
    NewRowUnreported(Run(s0, before), e, r);
    RunNeedsAWord(Step(Run(s0, before), e), events, r);
  }

  /** A startup timer goes off or is disarmed by its own process or a later start of the name, never
   *  by a predecessor. */
  lemma NoPredecessorDisarms(s0: Supervisor, before: seq<Event>, e: Event, r: RowId)
    requires Initial(s0) && r in Run(s0, before).windows.due
    ensures var s := Run(s0, before);
            r !in Step(s, e).windows.due ==>
              || OwnWindowEnds(s, e, r)
              || OwnReadyLine(s, e, r)
              || (e.Close? && e.child < |s.children| && s.children[e.child].row == r)
              || (r < |s.rows| && StartedName(s, e) == Some(s.rows[r].svc.name))
  {
    ReachableInv(s0, before);
    StepReadiness(Run(s0, before), e, r);
  }

  /** A startup window opens once, when its process is spawned, and its deadline never moves. */
  lemma {:induction false} WindowNeverMoves(s: Supervisor, events: seq<Event>, r: RowId)
    requires Inv(s) && r < |s.rows|
    ensures var f := Run(s, events);
            r < |f.rows| && (r in f.windows.due ==> r in s.windows.due && f.windows.due[r] == s.windows.due[r])
    decreases |events|
  {
    if events != [] {
      hide Inv, Step;
      StepKeeps(s, events[0]);
      StepReadiness(s, events[0], r);
      WindowNeverMoves(Step(s, events[0]), events[1..], r);
    }
  }

  lemma WindowOpensAtSpawn(s0: Supervisor, before: seq<Event>, e: Event, r: RowId)
    requires Initial(s0)
    ensures var s := Run(s0, before);
            var s' := Step(s, e);
            r in s'.windows.due && r !in s.windows.due ==>
              && |s.rows| <= r < |s'.rows| && s'.rows[r].startedAt == Some(s.clock)
              && s'.windows.due[r] == s.clock + s'.rows[r].svc.startupTimeoutMs
  {
    ReachableInv(s0, before);
    StepReadiness(Run(s0, before), e, r);
  }

  // ---------------------------------------------------------------- failing probes

  /** The probe's answer is written down: its state object is still the registered one. */
  predicate Accepted(s: Supervisor, e: Event, n: Name) {
    e.PollResult? && Polling(s, e.poll) && s.polls[e.poll].name == n && StillProbed(s, e.poll)
  }

  /** The streak of the name is dropped. */
  predicate Forgets(s: Supervisor, e: Event, n: Name) {
    (e.ForgetHealthCall? && e.name == n) || (e.RemoveCall? && e.name == n && Registered(s, n))
  }

  /** What one event adds to the answers of the name's probes since its streak was last dropped. */
  function Logged(s: Supervisor, e: Event, n: Name, log: seq<bool>): seq<bool> {
    if Accepted(s, e, n) then log + [e.ok] else if Forgets(s, e, n) then [] else log
  }

  /** The answers written down during a run, since the streak was last dropped. */
  function ProbeLog(s: Supervisor, events: seq<Event>, n: Name, log: seq<bool>): seq<bool>
    decreases |events|
  {
    if events == [] then log
    else ProbeLog(Step(s, events[0]), events[1..], n, Logged(s, events[0], n, log))
  }

  /** The failures at the end of the log. */
  function Streak(log: seq<bool>): nat {
    if log == [] || log[|log| - 1] then 0 else 1 + Streak(log[..|log| - 1])
  }

  lemma {:induction false} StreakEndsLog(log: seq<bool>, k: nat)
    requires k <= Streak(log)
    ensures k <= |log| && forall i :: |log| - k <= i < |log| ==> !log[i]
  {
    if k > 0 {
      StreakEndsLog(log[..|log| - 1], k - 1);
    }
  }

  lemma PollCounts(s: Supervisor, k: nat, ok: bool, n: Name, log: seq<bool>)
    requires Inv(s) && FailureCount(s, n) == Streak(log)
    ensures FailureCount(OnPollResult(s, k, ok), n) == Streak(Logged(s, PollResult(k, ok), n, log))
  {
    assert (log + [ok])[..|log|] == log;
  }

  lemma RemovalCounts(s: Supervisor, e: Event, n: Name, log: seq<bool>)
    requires FailureCount(s, n) == Streak(log)
    requires e.RemoveCall? && Step(s, e).tallies.failures
               == if Registered(s, e.name) then s.tallies.failures - {e.name} else s.tallies.failures
    ensures FailureCount(Step(s, e), n) == Streak(Logged(s, e, n, log))
  {
    hide Step;
  }

  /** Steps that write no probe's answer down. */
  lemma OtherCounts(s: Supervisor, e: Event, n: Name, log: seq<bool>)
    requires !e.PollResult? && !e.RemoveCall? && FailureCount(s, n) == Streak(log)
    requires Step(s, e).tallies.failures == if e.ForgetHealthCall? then s.tallies.failures - {e.name}
                                            else s.tallies.failures
    ensures FailureCount(Step(s, e), n) == Streak(Logged(s, e, n, log))
  {
    hide Step;
  }

  lemma FailuresLeft(s: Supervisor, s': Supervisor)
    requires LeavesReadiness(s, s')
    ensures s'.tallies.failures == s.tallies.failures && SamePromises(s, s')
  {}

  lemma FailuresMove(s: Supervisor, e: Event)
    requires Inv(s) && !e.PollResult? && !e.RemoveCall?
    ensures !Promises(e) ==> SamePromises(s, Step(s, e))
    ensures Step(s, e).tallies.failures == if e.ForgetHealthCall? then s.tallies.failures - {e.name}
                                           else s.tallies.failures
  {
    hide *;
    PromiseEvents(e);
    StepIs(s, e);
    if e.Line? { LineMoves(s, e.child, e.matches, 0); }
    else if e.Close? { CloseMoves(s, e.child, e.cleanExit, 0); }
    else if e.StartupTimerFires? { TimerMoves(s, e.row, 0); }
    else if e.StartCall? || e.PortResult? || e.ExitWaitOver? || e.BuildResult? || e.RestartTimerFires?
        || e.InstallDone? || e.RestartResume? {
      StartStepsMove(s, e, 0);
      FailuresLeft(s, Step(s, e));
    } else if e.RemoteCommit? || e.LocalCommit? || e.RemoteProbe? || e.Tick? || e.ForgetHealthCall? || Promises(e) {
      OutsideMoves(s, e, 0);
    } else {
      QuietStepsMove(s, e);
      FailuresLeft(s, Step(s, e));
    }
  }

  lemma CountFollowsLog(s: Supervisor, e: Event, n: Name, log: seq<bool>)
    requires Inv(s) && FailureCount(s, n) == Streak(log)
    ensures FailureCount(Step(s, e), n) == Streak(Logged(s, e, n, log))
  {
    hide *;
    StepIs(s, e);
    match e
    case PollResult(k, ok) => PollCounts(s, k, ok, n, log);
    case RemoveCall(m) => RemoveMoves(s, m, 0); RemovalCounts(s, e, n, log);
    case _ => FailuresMove(s, e); OtherCounts(s, e, n, log);
  }

  lemma {:induction false} CountIsStreak(s: Supervisor, events: seq<Event>, n: Name, log: seq<bool>)
    requires Inv(s) && FailureCount(s, n) == Streak(log)
    ensures FailureCount(Run(s, events), n) == Streak(ProbeLog(s, events, n, log))
    decreases |events|
  {
    if events != [] {
      hide Inv, Step, Logged, FailureCount, Streak;
      StepKeeps(s, events[0]);
      CountFollowsLog(s, events[0], n, log);
      CountIsStreak(Step(s, events[0]), events[1..], n, Logged(s, events[0], n, log));
    }
  }

  lemma ProbeThatTakesItDown(s: Supervisor, k: nat, ok: bool, r: RowId)
    requires Polling(s, k) && IsUp(s, r) && !IsUp(Step(s, PollResult(k, ok)), r) && !s.rows[r].status.Idle?
    ensures StillProbed(s, k) && s.polls[k].row == r && !ok
    ensures FailureCount(s, s.polls[k].name) + 1 >= s.rows[r].svc.failureThreshold
  {
    hide Step;
    StepIs(s, PollResult(k, ok));
  }

  lemma StreakOneMore(log: seq<bool>, threshold: int)
    requires Streak(log) + 1 >= threshold
    ensures threshold <= |log| + 1
    ensures forall i :: 0 <= i < |log| + 1 && |log| + 1 - threshold <= i ==> !(log + [false])[i]
  {
    assert (log + [false])[..|log|] == log;
    StreakEndsLog(log + [false], if threshold < 0 then 0 else threshold);
  }

  /** A probe takes a service from up only when it failed, and so did the probes before it: the last
   *  `failureThreshold` answers for the name, none of them forgotten, are all failures. */
  lemma DownNeedsStreak(s0: Supervisor, before: seq<Event>, k: nat, ok: bool, r: RowId)
    requires Initial(s0) && Polling(Run(s0, before), k)
    requires IsUp(Run(s0, before), r) && !IsUp(Step(Run(s0, before), PollResult(k, ok)), r)
    requires !Run(s0, before).rows[r].status.Idle?
    ensures var s := Run(s0, before);
            var n := s.polls[k].name;
            var log := ProbeLog(s0, before, n, []) + [ok];
            var threshold := s.rows[r].svc.failureThreshold;
            && Registered(s, n) && s.state[n] == r && threshold <= |log|
            && forall i :: 0 <= i < |log| && |log| - threshold <= i ==> !log[i]
  {
    var s := Run(s0, before);
    var n := s.polls[k].name;
    FreshCount(s0, n);
    ProbeThatTakesItDown(s, k, ok, r);
    hide Step, Run, ProbeLog, Streak, Inv, IsUp, Initial;
    CountIsStreak(s0, before, n, []);
    StreakOneMore(ProbeLog(s0, before, n, []), s.rows[r].svc.failureThreshold);
  }

  lemma FreshCount(s0: Supervisor, n: Name)
    requires Initial(s0)
    ensures Inv(s0) && FailureCount(s0, n) == Streak([])
  {}
}
