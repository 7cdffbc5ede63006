/** The crash counter of a name, and what `devup exec --fail-on-crash` reads off it. */
module CrashCounting {
  import opened Options
  import opened Supervision
  import opened SupervisionInvariants

  /** The exit is a failure: the spawn never worked, or the process ended badly and nobody had
   *  asked it to stop. */
  predicate FailingExit(s: Supervisor, p: ChildId, cleanExit: bool)
    requires p < |s.children| && s.children[p].row < |s.rows|
  {
    !s.children[p].spawned || (!s.rows[s.children[p].row].intentionalStop && !cleanExit)
  }

  /** The event is a failing exit of the registered entry's own process. */
  predicate CrashExit(s: Supervisor, e: Event, n: Name) {
    && e.Close? && e.child < |s.children| && !s.children[e.child].exited && s.children[e.child].row < |s.rows|
    && n in s.state && s.state[n] == s.children[e.child].row
    && FailingExit(s, e.child, e.cleanExit)
  }

  predicate FailedStart(s: Supervisor, t: int, n: Name) {
    && 0 <= t < |s.starts.tasks| && s.starts.tasks[t].svc.name == n
    && s.starts.tasks[t].phase == Settled(FailedBeforeStart)
  }

  /** A start of the name has just failed before there was a process. */
  ghost predicate FailsBeforeStart(s: Supervisor, s': Supervisor, n: Name) {
    exists t :: FailedStart(s', t, n) && !FailedStart(s, t, n)
  }

  /** The step is a crash of the name: of its current process, or before there was one. */
  ghost predicate CrashStep(s: Supervisor, e: Event, n: Name) {
    CrashExit(s, e, n) || FailsBeforeStart(s, Step(s, e), n)
  }

  /** A reload of the name: it is removed, or registered afresh with its counters at zero. */
  predicate Reloads(e: Event, n: Name) {
    || (e.RemoveCall? && e.name == n)
    || (e.RegisterLazyCall? && e.svc.name == n)
    || (e.RegisterRemoteCall? && e.svc.name == n)
  }

  predicate NoReload(events: seq<Event>, n: Name) {
    forall i :: 0 <= i < |events| ==> !Reloads(events[i], n)
  }

  /** How many of a run's steps are crashes of the name. */
  ghost function CrashSteps(s: Supervisor, events: seq<Event>, n: Name): nat
    decreases |events|
  {
    if events == [] then 0
    else (if CrashStep(s, events[0], n) then 1 else 0) + CrashSteps(Step(s, events[0]), events[1..], n)
  }

  predicate ShowsCrash(s: Supervisor, n: Name) {
    Registered(s, n) && Entry(s, n).status.Crashed?
  }

  // ---------------------------------------------------------------- what one step does to the counter

  /** No crash of the name: its counter stays, and its row does not turn crashed. */
  ghost predicate Uneventful(s: Supervisor, s': Supervisor, n: Name) {
    && PreviousCrashes(s', n) == PreviousCrashes(s, n)
    && (ShowsCrash(s', n) ==> ShowsCrash(s, n))
    && (Registered(s, n) ==> Registered(s', n))
    && forall t :: FailedStart(s', t, n) ==> FailedStart(s, t, n)
  }

  /** One crash before there was a process. */
  ghost predicate CrashesEarly(s: Supervisor, s': Supervisor, n: Name) {
    && PreviousCrashes(s', n) == PreviousCrashes(s, n) + 1
    && Registered(s', n)
    && exists t :: FailedStart(s', t, n) && !FailedStart(s, t, n)
  }

  ghost predicate Counted(s: Supervisor, s': Supervisor, n: Name) {
    Uneventful(s, s', n) || CrashesEarly(s, s', n)
  }

  lemma UneventfulTransitive(a: Supervisor, b: Supervisor, c: Supervisor, n: Name)
    requires Uneventful(a, b, n) && Uneventful(b, c, n)
    ensures Uneventful(a, c, n)
  {}

  lemma Nothing(s: Supervisor, n: Name)
    ensures Uneventful(s, s, n)
  {}

  lemma UneventfulCounts(s: Supervisor, s': Supervisor, n: Name)
    requires Uneventful(s, s', n)
    ensures Counted(s, s', n)
  {}

  /** State objects were written, but no counter, and none turned crashed. */
  lemma WritesUneventful(s: Supervisor, s': Supervisor, n: Name)
    requires s'.state == s.state && |s'.rows| == |s.rows| && s'.starts == s.starts
    requires forall r :: 0 <= r < |s.rows| ==>
               s'.rows[r].crashes == s.rows[r].crashes && (s'.rows[r].status.Crashed? ==> s.rows[r].status.Crashed?)
    ensures Uneventful(s, s', n)
  {
    forall t ensures FailedStart(s', t, n) ==> FailedStart(s, t, n) {}
  }

  /** The tasks moved on, but none into failure. */
  lemma TasksUneventful(s: Supervisor, s': Supervisor, n: Name)
    requires s'.state == s.state && s'.rows == s.rows
    requires forall t :: FailedStart(s', t, n) ==> FailedStart(s, t, n)
    ensures Uneventful(s, s', n)
  {}

  lemma InstallUneventful(s: Supervisor, m: Name, st: ProcessState, n: Name)
    requires Inv(s) && m != n
    ensures Uneventful(s, Install(s, m, st), n)
  {
    assert StateOk(s.rows, s.state, n);
    forall t ensures FailedStart(Install(s, m, st), t, n) ==> FailedStart(s, t, n) {}
  }

  /** `a` is where the segment began; the start `t` had not failed there. */
  ghost predicate Since(a: Supervisor, s: Supervisor, t: TaskId, n: Name) {
    Inv(s) && InFlight(s, t) && Uneventful(a, s, n) && !FailedStart(a, t, n)
  }

  lemma SettleUneventful(a: Supervisor, s: Supervisor, t: TaskId, outcome: Outcome, n: Name)
    requires Since(a, s, t, n) && !outcome.FailedBeforeStart?
    ensures Uneventful(a, Settle(s, t, outcome), n)
  {
    var s' := Settle(s, t, outcome);
    forall x ensures FailedStart(s', x, n) ==> FailedStart(s, x, n) {}
    assert Uneventful(s, s', n);
    UneventfulTransitive(a, s, s', n);
  }

  lemma FailCounted(a: Supervisor, s: Supervisor, t: TaskId, n: Name)
    requires Since(a, s, t, n)
    ensures Counted(a, Settle(RecordCrashed(s, s.starts.tasks[t].svc), t, FailedBeforeStart), n)
  {
    var svc := s.starts.tasks[t].svc;
    var x := RecordCrashed(s, svc);
    var s' := Settle(x, t, FailedBeforeStart);
    if svc.name == n {
      assert FailedStart(s', t, n);
      assert PreviousCrashes(s', n) == PreviousCrashes(s, n) + 1;
    } else {
      InstallUneventful(s, svc.name, x.rows[|s.rows|], n);
      assert StateOk(s.rows, s.state, n);
      forall y ensures FailedStart(s', y, n) ==> FailedStart(x, y, n) {}
      assert Uneventful(x, s', n);
      UneventfulTransitive(s, x, s', n);
      UneventfulTransitive(a, s, s', n);
    }
  }

  lemma SpawnUneventful(a: Supervisor, s: Supervisor, t: TaskId, succeeds: bool, n: Name)
    requires Since(a, s, t, n)
    ensures Uneventful(a, Spawn(s, t, succeeds), n)
  {
    var s' := Spawn(s, t, succeeds);
    assert StateOk(s.rows, s.state, n);
    forall x ensures FailedStart(s', x, n) ==> FailedStart(s, x, n) {}
    assert Uneventful(s, s', n);
    UneventfulTransitive(a, s, s', n);
  }

  lemma AfterBuildCounted(a: Supervisor, s: Supervisor, t: TaskId, world: World, n: Name)
    requires Since(a, s, t, n)
    ensures Counted(a, AfterBuild(s, t, world), n)
  {
    var task := s.starts.tasks[t];
    if !world.watchPathsExist { FailCounted(a, s, t, n); }
    else if Generation(s, task.svc.name) != task.generation { SettleUneventful(a, s, t, Removed, n); }
    else if s.closing { SettleUneventful(a, s, t, Refused, n); }
    else { SpawnUneventful(a, s, t, world.spawnSucceeds, n); }
  }

  lemma SetTaskUneventful(s: Supervisor, t: TaskId, task: StartTask, n: Name)
    requires InFlight(s, t) && !task.phase.Settled?
    ensures Uneventful(s, SetTask(s, t, task), n)
  {
    var s' := SetTask(s, t, task);
    forall x ensures FailedStart(s', x, n) ==> FailedStart(s, x, n) {}
    TasksUneventful(s, s', n);
  }

  lemma AfterPortCounted(a: Supervisor, s: Supervisor, t: TaskId, world: World, n: Name)
    requires Since(a, s, t, n)
    ensures Counted(a, AfterPort(s, t, world), n)
  {
    var task := s.starts.tasks[t];
    var s1 := ClearStartupTimer(s, task.svc.name, None);
    ClearStartupTimerKeeps(s, task.svc.name, None);
    WritesUneventful(s, s1, n);
    UneventfulTransitive(a, s, s1, n);
    if !task.svc.hasPreBuild { AfterBuildCounted(a, s1, t, world, n); }
    else if s1.closing { SettleUneventful(a, s1, t, Refused, n); }
    else {
      SetTaskUneventful(s1, t, task.(phase := Building), n);
      UneventfulTransitive(a, s1, SetTask(s1, t, task.(phase := Building)), n);
    }
  }

  lemma PortTakenCounted(s: Supervisor, t: TaskId, n: Name)
    requires Since(s, s, t, n)
    ensures Counted(s, PortTaken(s, t), n)
  {
    var svc := s.starts.tasks[t].svc;
    var s1 := ClearStartupTimer(s, svc.name, None);
    ClearStartupTimerKeeps(s, svc.name, None);
    WritesUneventful(s, s1, n);
    FailCounted(s, s1, t, n);
  }

  lemma StartCounted(a: Supervisor, s: Supervisor, svc: ServiceConfig, isRestart: bool, auto: bool, world: World,
                     n: Name)
    requires Inv(s) && Uneventful(a, s, n) && |a.starts.tasks| == |s.starts.tasks|
    ensures Counted(a, Start(s, svc, isRestart, auto, world), n)
  {
    if svc.name in s.starts.starting {
      if auto {
        var t := s.starts.starting[svc.name];
        assert StartingOk(s.starts, svc.name);
        SetTaskUneventful(s, t, s.starts.tasks[t].(auto := true), n);
        UneventfulTransitive(a, s, SetTask(s, t, s.starts.tasks[t].(auto := true)), n);
      }
    } else {
      var t, task := |s.starts.tasks|, StartTask(svc, isRestart, Generation(s, svc.name), auto, PortCheck);
      EnterKeeps(s, task);
      var s1 := Enter(s, task);
      forall x ensures FailedStart(s1, x, n) ==> FailedStart(s, x, n) {}
      TasksUneventful(s, s1, n);
      UneventfulTransitive(a, s, s1, n);
      if s.closing || (Registered(s, svc.name) && Entry(s, svc.name).remote.Some?) {
        SettleUneventful(a, s1, t, Refused, n);
      }
      else if !svc.isApi { AfterPortCounted(a, s1, t, world, n); }
    }
  }

  lemma PortResultCounted(s: Supervisor, t: TaskId, bindable: bool, world: World, n: Name)
    requires Inv(s)
    ensures Counted(s, OnPortResult(s, t, bindable, world), n)
  {
    Nothing(s, n);
    if InFlight(s, t) {
      assert Since(s, s, t, n);
      hide Inv, Uneventful, CrashesEarly, Since;
      var task := s.starts.tasks[t];
      if (task.phase.PortCheck? && (bindable || task.isRestart)) || (task.phase.PortRecheck? && bindable) {
        AfterPortCounted(s, s, t, world, n);
      } else if task.phase.PortCheck? && Registered(s, task.svc.name) && IsRunning(s, Entry(s, task.svc.name)) {
        var st := Entry(s, task.svc.name);
        SettleUneventful(s, s, t, LeftAlone, n);
        SetTaskUneventful(s, t, task.(phase := ExitWait(st.proc.value, s.clock + STOP_GRACE_MS)), n);
      } else if task.phase.PortCheck? || task.phase.PortRecheck? {
        PortTakenCounted(s, t, n);
      }
    }
  }

  lemma WaitAndBuildCounted(s: Supervisor, t: TaskId, ok: bool, world: World, n: Name)
    requires Inv(s)
    ensures Uneventful(s, OnExitWaitOver(s, t), n) && Counted(s, OnBuildResult(s, t, ok, world), n)
  {
    Nothing(s, n);
    if InFlight(s, t) {
      SetTaskUneventful(s, t, s.starts.tasks[t].(phase := PortRecheck), n);
      if ok { AfterBuildCounted(s, s, t, world, n); } else { FailCounted(s, s, t, n); }
    }
  }

  lemma RestartTimerCounted(s: Supervisor, timer: TimerId, world: World, n: Name)
    requires Inv(s)
    ensures Counted(s, OnRestartTimer(s, timer, world), n)
  {
    Nothing(s, n);
    if RestartTimerDue(s, timer) {
      var svc := s.queue.timers[timer].svc;
      var s1 := s.(queue := s.queue.(timers := s.queue.timers - {timer}, pending := s.queue.pending - {svc.name}));
      forall m ensures PendingOk(s1.queue, m) { assert PendingOk(s.queue, m); }
      forall k ensures TimerOk(s1.queue, k) { assert TimerOk(s.queue, k); }
      WritesUneventful(s, s1, n);
      StartCounted(s, s1, svc, true, true, world, n);
    }
  }

  lemma HandOverCounted(s: Supervisor, q: nat, world: World, n: Name)
    requires Inv(s)
    ensures Counted(s, OnInstallDone(s, q, world), n) && Counted(s, OnRestartResume(s, q, world), n)
  {
    Nothing(s, n);
    if q < |s.requests| {
      var req := s.requests[q];
      AdvanceRequest(s, q, Handed);
      var s1 := s.(requests := s.requests[q := req.(phase := Handed)]);
      WritesUneventful(s, s1, n);
      if req.row < |s.rows| {
        StartCounted(s, s1, s.rows[req.row].svc, false, false, world, n);
        StartCounted(s, s1, s.rows[req.row].svc, true, false, world, n);
      }
    }
  }

  lemma StopUneventful(s: Supervisor, m: Name, kill: bool, n: Name)
    ensures Uneventful(s, StopService(s, m), n) && Uneventful(s, SignalService(s, m, kill), n)
            && Uneventful(s, CancelRestart(s, m), n)
  {
    WritesUneventful(s, StopService(s, m), n);
    WritesUneventful(s, SignalService(s, m, kill), n);
    WritesUneventful(s, CancelRestart(s, m), n);
  }

  lemma RemoveUneventful(s: Supervisor, m: Name, n: Name)
    requires m != n
    ensures Uneventful(s, RemoveService(s, m), n)
  {
    var s' := RemoveService(s, m);
    forall t ensures FailedStart(s', t, n) ==> FailedStart(s, t, n) {}
  }

  lemma AfterDrainUneventful(s: Supervisor, q: nat, n: Name)
    requires q < |s.requests|
    ensures Uneventful(s, AfterDrain(s, q), n)
  {
    WritesUneventful(s, AfterDrain(s, q), n);
  }

  lemma StartServiceUneventful(s: Supervisor, m: Name, n: Name)
    ensures Uneventful(s, OnStartService(s, m), n)
  {
    Nothing(s, n);
    if Registered(s, m) && Entry(s, m).remote.None? {
      var s1 := s.(requests := s.requests + [Request(m, s.state[m], Installing)]);
      WritesUneventful(s, s1, n);
      AfterDrainUneventful(s1, |s.requests|, n);
      UneventfulTransitive(s, s1, AfterDrain(s1, |s.requests|), n);
      hide AfterDrain;
      if IsRunning(s, Entry(s, m)) { WritesUneventful(s, OnStartService(s, m), n); }
    }
  }

  lemma DrainOverUneventful(s: Supervisor, q: nat, n: Name)
    ensures Uneventful(s, OnDrainOver(s, q), n)
  {
    Nothing(s, n);
    if q < |s.requests| {
      AfterDrainUneventful(s, q, n);
      WritesUneventful(s, s.(requests := s.requests[q := s.requests[q].(phase := Handed)]), n);
    }
  }

  lemma RestartServiceUneventful(s: Supervisor, m: Name, n: Name)
    ensures Uneventful(s, OnRestartService(s, m), n)
  {
    Nothing(s, n);
    if Registered(s, m) {
      StopUneventful(s, m, false, n);
      WritesUneventful(StopService(s, m), OnRestartService(s, m), n);
      UneventfulTransitive(s, StopService(s, m), OnRestartService(s, m), n);
    }
  }

  lemma CleanupUneventful(s: Supervisor, graceMs: nat, k: nat, n: Name)
    ensures Uneventful(s, OnCleanup(s, graceMs), n) && Uneventful(s, OnGraceOver(s, k), n)
  {
    WritesUneventful(s, OnCleanup(s, graceMs), n);
    WritesUneventful(s, OnGraceOver(s, k), n);
  }

  lemma OutputUneventful(s: Supervisor, p: ChildId, matches: bool, r: RowId, n: Name)
    ensures Uneventful(s, OnLine(s, p, matches), n) && Uneventful(s, OnStartupTimer(s, r), n)
  {
    WritesUneventful(s, OnLine(s, p, matches), n);
    WritesUneventful(s, OnStartupTimer(s, r), n);
  }

  lemma PollUneventful(s: Supervisor, m: Name, k: nat, ok: bool, n: Name)
    ensures Uneventful(s, OnPollBegin(s, m), n) && Uneventful(s, OnPollResult(s, k, ok), n)
  {
    WritesUneventful(s, OnPollBegin(s, m), n);
    WritesUneventful(s, OnPollResult(s, k, ok), n);
  }

  lemma MiscUneventful(s: Supervisor, m: Name, reachable: bool, suspended: bool, ms: nat, n: Name)
    ensures Uneventful(s, Awake(s, m, reachable, suspended), n)
            && Uneventful(s, OnRemoteProbe(s, m, reachable), n)
    ensures Uneventful(s, OnBootMarksRunning(s, m), n) && Uneventful(s, OnTick(s, ms), n)
            && Uneventful(s, OnForgetHealth(s, m), n)
  {
    WritesUneventful(s, Awake(s, m, reachable, suspended), n);
    WritesUneventful(s, OnRemoteProbe(s, m, reachable), n);
    WritesUneventful(s, OnBootMarksRunning(s, m), n);
    WritesUneventful(s, OnTick(s, ms), n);
    WritesUneventful(s, OnForgetHealth(s, m), n);
  }

  lemma PromiseUneventful(s: Supervisor, e: Event, n: Name)
    requires Promises(e)
    ensures Uneventful(s, Step(s, e), n)
  {
    PromisesAre(s, e);
    hide Step;
    WritesUneventful(s, Step(s, e), n);
  }

  lemma SwitchUneventful(s: Supervisor, r: RowId, svc: ServiceConfig, env: string, n: Name)
    ensures Uneventful(s, OnRemoteCommit(s, r, svc, env), n) && Uneventful(s, OnLocalCommit(s, r, svc), n)
  {
    WritesUneventful(s, OnRemoteCommit(s, r, svc, env), n);
    WritesUneventful(s, OnLocalCommit(s, r, svc), n);
  }

  lemma RegistrationsUneventful(s: Supervisor, svc: ServiceConfig, env: string, n: Name)
    requires Inv(s) && svc.name != n
    ensures Uneventful(s, OnRegisterLazy(s, svc), n) && Uneventful(s, OnRegisterRemote(s, svc, env), n)
  {
    InstallUneventful(s, svc.name, OnRegisterLazy(s, svc).rows[|s.rows|], n);
    InstallUneventful(s, svc.name, OnRegisterRemote(s, svc, env).rows[|s.rows|], n);
  }

  lemma CloseWrites(s: Supervisor, p: ChildId, cleanExit: bool)
    requires p < |s.children| && !s.children[p].exited && s.children[p].row < |s.rows|
    ensures var s' := OnClose(s, p, cleanExit);
            var r := s.children[p].row;
            && s'.state == s.state && |s'.rows| == |s.rows| && s'.starts == s.starts
            && s'.rows == s.rows[r := s'.rows[r]]
            && s'.rows[r].crashes == s.rows[r].crashes + (if FailingExit(s, p, cleanExit) then 1 else 0)
            && (s'.rows[r].status.Crashed? ==> s.rows[r].status.Crashed? || FailingExit(s, p, cleanExit))
  {
    var s1 := ChildGone(s, p);
    assert s1.state == s.state && s1.starts == s.starts;
    hide ChildGone;
  }

  /** An exit counts exactly when it is a crash of the registered entry's own process. */
  lemma CloseCounts(s: Supervisor, p: ChildId, cleanExit: bool, n: Name)
    requires Inv(s)
    ensures var s' := OnClose(s, p, cleanExit);
            && s'.state == s.state && |s'.rows| == |s.rows| && s'.starts.tasks == s.starts.tasks
            && PreviousCrashes(s', n) == PreviousCrashes(s, n) + (if CrashExit(s, Close(p, cleanExit), n) then 1 else 0)
            && (ShowsCrash(s', n) ==> ShowsCrash(s, n) || CrashExit(s, Close(p, cleanExit), n))
  {
    if p < |s.children| && !s.children[p].exited && s.children[p].row < |s.rows| {
      CloseWrites(s, p, cleanExit);
      assert StateOk(s.rows, s.state, n);
      hide OnClose;
    }
  }

  // ---------------------------------------------------------------- runs

  lemma IdleUneventful(s: Supervisor, m: Name, n: Name)
    ensures Uneventful(s, OnIdleStop(s, m), n)
  {
    Nothing(s, n);
    if Registered(s, m) && Entry(s, m).remote.None? { WritesUneventful(s, OnIdleStop(s, m), n); }
  }

  lemma ReloadSays(e: Event, n: Name)
    requires !Reloads(e, n)
    ensures e.RemoveCall? ==> e.name != n
    ensures e.RegisterLazyCall? || e.RegisterRemoteCall? ==> e.svc.name != n
  {}

  /** Steps that start nothing and end nothing. */
  lemma StepUneventful(s: Supervisor, e: Event, n: Name)
    requires Inv(s) && !Reloads(e, n)
    requires !e.StartCall? && !e.PortResult? && !e.ExitWaitOver? && !e.BuildResult? && !e.RestartTimerFires?
          && !e.InstallDone? && !e.RestartResume? && !e.Close?
    ensures Uneventful(s, Step(s, e), n)
  {
    hide *;
    ReloadSays(e, n);
    StepIs(s, e);
    PromiseEvents(e);
    match e
    case StopCall(m) => StopUneventful(s, m, false, n);
    case ForceStopCall(m) => StopUneventful(s, m, true, n);
    case CancelCall(m) => StopUneventful(s, m, false, n);
    case RemoveCall(m) => RemoveUneventful(s, m, n);
    case StartServiceCall(m) => StartServiceUneventful(s, m, n);
    case DrainOver(q) => DrainOverUneventful(s, q, n);
    case RestartServiceCall(m) => RestartServiceUneventful(s, m, n);
    case CleanupCall(graceMs) => CleanupUneventful(s, graceMs, 0, n);
    case GraceOver(k) => CleanupUneventful(s, 0, k, n);
    case IdleStopCall(m) => IdleUneventful(s, m, n);
    case Tick(ms) => MiscUneventful(s, "", true, true, ms, n);
    case Line(p, matches) => OutputUneventful(s, p, matches, 0, n);
    case StartupTimerFires(r) => OutputUneventful(s, 0, true, r, n);
    case PollBegin(m) => PollUneventful(s, m, 0, true, n);
    case PollResult(k, ok) => PollUneventful(s, "", k, ok, n);
    case ForgetHealthCall(m) => MiscUneventful(s, m, true, true, 0, n);
    case BootMarksRunning(m) => MiscUneventful(s, m, true, true, 0, n);
    case RegisterLazyCall(svc) => RegistrationsUneventful(s, svc, "", n);
    case WakeBegin(svc) => PromiseUneventful(s, e, n);
    case WakeSettles(w, reachable) => PromiseUneventful(s, e, n);
    case WakeGivesUp(w) => PromiseUneventful(s, e, n);
    case RegisterRemoteCall(svc, env) => RegistrationsUneventful(s, svc, env, n);
    case RemoteCommit(r, svc, env) => SwitchUneventful(s, r, svc, env, n);
    case LocalCommit(r, svc) => SwitchUneventful(s, r, svc, "", n);
    case RemoteProbe(m, reachable) => MiscUneventful(s, m, reachable, true, 0, n);
    case OnceSettles(svc, reachable) => PromiseUneventful(s, e, n);
    case OnceReports(k) => PromiseUneventful(s, e, n);
  }

  /** Steps but exits. */
  lemma StepCounted(s: Supervisor, e: Event, n: Name)
    requires Inv(s) && !Reloads(e, n) && !e.Close?
    ensures Counted(s, Step(s, e), n)
  {
    Nothing(s, n);
    hide *;
    StepIs(s, e);
    match e
    case StartCall(svc, isRestart, world) => StartCounted(s, s, svc, isRestart, false, world, n);
    case PortResult(t, bindable, world) => PortResultCounted(s, t, bindable, world, n);
    case ExitWaitOver(t) => WaitAndBuildCounted(s, t, true, World(true, true), n); UneventfulCounts(s, Step(s, e), n);
    case BuildResult(t, ok, world) => WaitAndBuildCounted(s, t, ok, world, n);
    case RestartTimerFires(timer, world) => RestartTimerCounted(s, timer, world, n);
    case InstallDone(q, world) => HandOverCounted(s, q, world, n);
    case RestartResume(q, world) => HandOverCounted(s, q, world, n);
    case _ => StepUneventful(s, e, n); UneventfulCounts(s, Step(s, e), n);
  }

  /** The counter of a name that is not reloaded goes up by one at each of its crashes and never
   *  otherwise, whatever respawns and manual starts do; and its row turns crashed at a crash only. */
  lemma StepCounts(s: Supervisor, e: Event, n: Name)
    requires Inv(s) && !Reloads(e, n)
    ensures PreviousCrashes(Step(s, e), n) == PreviousCrashes(s, n) + (if CrashStep(s, e, n) then 1 else 0)
    ensures ShowsCrash(Step(s, e), n) ==> ShowsCrash(s, n) || CrashStep(s, e, n)
    ensures Registered(s, n) ==> Registered(Step(s, e), n)
  {
    StepIs(s, e);
    if e.Close? {
      CloseCounts(s, e.child, e.cleanExit, n);
      hide Step;
      forall t ensures FailedStart(Step(s, e), t, n) == FailedStart(s, t, n) {}
    } else {
      hide *;
      StepCounted(s, e, n);
      CountedCounts(s, e, n);
    }
  }

  lemma CountedCounts(s: Supervisor, e: Event, n: Name)
    requires !e.Close? && Counted(s, Step(s, e), n)
    ensures PreviousCrashes(Step(s, e), n) == PreviousCrashes(s, n) + (if CrashStep(s, e, n) then 1 else 0)
    ensures ShowsCrash(Step(s, e), n) ==> ShowsCrash(s, n) || CrashStep(s, e, n)
    ensures Registered(s, n) ==> Registered(Step(s, e), n)
  {
    hide Step;
  }

  lemma {:induction false} RunCounts(s: Supervisor, events: seq<Event>, n: Name)
    requires Inv(s) && NoReload(events, n)
    ensures PreviousCrashes(Run(s, events), n) == PreviousCrashes(s, n) + CrashSteps(s, events, n)
    ensures ShowsCrash(Run(s, events), n) ==> ShowsCrash(s, n) || CrashSteps(s, events, n) > 0
    ensures Registered(s, n) ==> Registered(Run(s, events), n)
    decreases |events|
  {
    hide Inv, Step, CrashStep;
    if events != [] {
      assert !Reloads(events[0], n);
      StepKeeps(s, events[0]);
      StepCounts(s, events[0], n);
      assert NoReload(events[1..], n);
      RunCounts(Step(s, events[0]), events[1..], n);
    }
  }

  // ---------------------------------------------------------------- crashedDuring

  /** What `snapshotWindow` keeps of a service. */
  datatype CrashWindow = CrashWindow(crashed: bool, crashes: nat)

  datatype Service = Service(name: Name, crashed: bool, crashes: nat)

  predicate Reported(before: map<Name, CrashWindow>, svc: Service) {
    && svc.name in before
    && (svc.crashes > before[svc.name].crashes || (svc.crashed && !before[svc.name].crashed))
  }

  /** The names that `crashedDuring` is to report, in the order of the second photograph. */
  function Crashed(before: map<Name, CrashWindow>, after: seq<Service>): seq<Name> {
    if after == [] then []
    else Crashed(before, after[..|after| - 1])
         + if Reported(before, after[|after| - 1]) then [after[|after| - 1].name] else []
  }

  method CrashedDuring(before: map<Name, CrashWindow>, after: seq<Service>) returns (out: seq<Name>)
    ensures out == Crashed(before, after)
    ensures forall n :: n in out <==> exists i :: 0 <= i < |after| && after[i].name == n && Reported(before, after[i])
  {
    out := [];
    for i := 0 to |after|
      invariant out == Crashed(before, after[..i])
      invariant forall n :: n in out <==> exists j :: 0 <= j < i && after[j].name == n && Reported(before, after[j])
    {
      var svc := after[i];
      assert after[..i + 1][..i] == after[..i];
      if svc.name !in before { continue; }
      var prev := before[svc.name];
      if svc.crashes > prev.crashes { out := out + [svc.name]; continue; }
      if svc.crashed && !prev.crashed { out := out + [svc.name]; }
    }
    assert after[..|after|] == after;
  }

  /** The photograph `devup exec` takes of a registered name. */
  function Photograph(s: Supervisor, n: Name): Service
    requires Registered(s, n)
  {
    Service(n, Entry(s, n).status.Crashed?, Entry(s, n).crashes)
  }

  /** With no reload of the name in the window, `crashedDuring` reports it exactly when a process of
   *  its, or a start before there was one, crashed between the two photographs. */
  lemma ReportsExactlyCrashes(s0: Supervisor, before: seq<Event>, window: seq<Event>, n: Name)
    requires Initial(s0) && NoReload(window, n) && Registered(Run(s0, before), n)
    ensures var s := Run(s0, before);
            var f := Run(s, window);
            && Registered(f, n)
            && var first := Photograph(s, n);
               Reported(map[n := CrashWindow(first.crashed, first.crashes)], Photograph(f, n))
               <==> exists i :: 0 <= i < |window| && CrashStep(Run(s, window[..i]), window[i], n)
  {
    var s := Run(s0, before);
    ReachableInv(s0, before);
    RunCounts(s, window, n);
    CrashStepsPositive(s, window, n);
  }

  lemma {:induction false} CrashStepsPositive(s: Supervisor, events: seq<Event>, n: Name)
    ensures CrashSteps(s, events, n) > 0 <==>
              exists i :: 0 <= i < |events| && CrashStep(Run(s, events[..i]), events[i], n)
    decreases |events|
  {
    hide Step, CrashStep;
    if events != [] {
      var s1, rest := Step(s, events[0]), events[1..];
      CrashStepsPositive(s1, rest, n);
      assert events[..0] == [];
      assert CrashStep(s, events[0], n) == CrashStep(Run(s, events[..0]), events[0], n);
      forall i | 0 <= i < |rest|
        ensures CrashStep(Run(s1, rest[..i]), rest[i], n) == CrashStep(Run(s, events[..i + 1]), events[i + 1], n)
      {
        assert events[..i + 1][1..] == rest[..i];
      }
      if exists i :: 0 <= i < |events| && CrashStep(Run(s, events[..i]), events[i], n) {
        var i :| 0 <= i < |events| && CrashStep(Run(s, events[..i]), events[i], n);
        if i > 0 { assert CrashStep(Run(s1, rest[..i - 1]), rest[i - 1], n); }
      }
    }
  }
}
