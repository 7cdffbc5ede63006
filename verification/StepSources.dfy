/** Where a signal, a probe or a new start time comes from: what every other step leaves as it is. */
module StepSources {
  import opened Options
  import opened Supervision

  /** The configuration, the place, the process and the start time of the row stay; the start time may be wiped. */
  predicate RowGoesOn(a: ProcessState, b: ProcessState) {
    b.svc == a.svc && b.remote == a.remote && b.proc == a.proc
    && (b.startedAt == a.startedAt || b.startedAt.None?)
  }

  /** A service that an environment serves has no process. */
  predicate Detached(st: ProcessState) {
    st.remote.Some? ==> st.proc.None?
  }

  /** Nobody has signalled the process. */
  predicate ChildGoesOn(a: Child, b: Child) {
    && b.svc == a.svc && b.row == a.row && b.spawned == a.spawned
    && b.sigterm == a.sigterm && b.sigkill == a.sigkill && b.stopped == a.stopped
  }

  ghost predicate RowsGoOn(s: Supervisor, s': Supervisor) {
    && |s.rows| <= |s'.rows|
    && (forall r :: 0 <= r < |s.rows| ==> RowGoesOn(s.rows[r], s'.rows[r]))
    && (forall r :: |s.rows| <= r < |s'.rows| ==> Detached(s'.rows[r]))
  }

  ghost predicate ChildrenGoOn(s: Supervisor, s': Supervisor) {
    && |s.children| <= |s'.children|
    && (forall q :: 0 <= q < |s.children| ==> ChildGoesOn(s.children[q], s'.children[q]))
    && (forall q :: |s.children| <= q < |s'.children| ==> !s'.children[q].sigterm && !s'.children[q].sigkill)
  }

  ghost predicate GoesOn(s: Supervisor, s': Supervisor) {
    RowsGoOn(s, s') && ChildrenGoOn(s, s') && s'.polls == s.polls && s'.clock == s.clock
  }

  /** Every row that there was shows what it showed. */
  ghost predicate ShowsSame(s: Supervisor, s': Supervisor) {
    && |s.rows| <= |s'.rows|
    && forall r :: 0 <= r < |s.rows| ==> s'.rows[r].status == s.rows[r].status && s'.rows[r].health == s.rows[r].health
  }

  ghost predicate Keeps(s: Supervisor, s': Supervisor) {
    GoesOn(s, s') && ShowsSame(s, s')
  }

  // ---------------------------------------------------------------- starts

  lemma KeepsThen(a: Supervisor, b: Supervisor, c: Supervisor)
    requires Keeps(a, b) && Keeps(b, c)
    ensures Keeps(a, c)
  {}

  lemma GoesOnThen(a: Supervisor, b: Supervisor, c: Supervisor)
    requires GoesOn(a, b) && GoesOn(b, c)
    ensures GoesOn(a, c)
  {}

  lemma SettleKeepsRows(s: Supervisor, t: TaskId, outcome: Outcome)
    requires t < |s.starts.tasks|
    ensures Keeps(s, Settle(s, t, outcome)) && Keeps(s, Settle(RecordCrashed(s, s.starts.tasks[t].svc), t, outcome))
  {}

  lemma SpawnKeepsRows(s: Supervisor, t: TaskId, succeeds: bool)
    requires t < |s.starts.tasks|
    ensures Keeps(s, Spawn(s, t, succeeds))
  {}

  lemma AfterBuildKeepsRows(s: Supervisor, t: TaskId, world: World)
    requires t < |s.starts.tasks|
    ensures Keeps(s, AfterBuild(s, t, world))
  {
    SettleKeepsRows(s, t, FailedBeforeStart);
    SettleKeepsRows(s, t, Removed);
    SettleKeepsRows(s, t, Refused);
    SpawnKeepsRows(s, t, world.spawnSucceeds);
    hide Keeps, Settle, RecordCrashed, Spawn;
  }

  lemma ClearTimerKeepsRows(s: Supervisor, n: Name, owner: Option<RowId>)
    ensures var s1 := ClearStartupTimer(s, n, owner); Keeps(s, s1) && s1 == s.(windows := s1.windows)
  {}

  lemma AfterPortKeepsRows(s: Supervisor, t: TaskId, world: World)
    requires t < |s.starts.tasks|
    ensures Keeps(s, AfterPort(s, t, world)) && Keeps(s, PortTaken(s, t))
  {
    var task := s.starts.tasks[t];
    var s1 := ClearStartupTimer(s, task.svc.name, None);
    ClearTimerKeepsRows(s, task.svc.name, None);
    AfterBuildKeepsRows(s1, t, world);
    SettleKeepsRows(s1, t, Refused);
    SettleKeepsRows(s1, t, FailedBeforeStart);
    assert Keeps(s1, SetTask(s1, t, task.(phase := Building)));
    hide Keeps, Settle, RecordCrashed, AfterBuild, ClearStartupTimer, SetTask;
    forall x | Keeps(s1, x) ensures Keeps(s, x) { KeepsThen(s, s1, x); }
  }

  lemma StartKeepsRows(s: Supervisor, svc: ServiceConfig, isRestart: bool, auto: bool, world: World)
    ensures Keeps(s, Start(s, svc, isRestart, auto, world))
  {
    if svc.name !in s.starts.starting {
      var t, task := |s.starts.tasks|, StartTask(svc, isRestart, Generation(s, svc.name), auto, PortCheck);
      var s1 := Enter(s, task);
      assert Keeps(s, s1) && t < |s1.starts.tasks|;
      SettleKeepsRows(s1, t, Refused);
      AfterPortKeepsRows(s1, t, world);
      hide Keeps, Settle, AfterPort, Enter;
      forall x | Keeps(s1, x) ensures Keeps(s, x) { KeepsThen(s, s1, x); }
    }
  }

  lemma PortResultKeepsRows(s: Supervisor, t: TaskId, bindable: bool, world: World)
    ensures Keeps(s, OnPortResult(s, t, bindable, world))
  {
    assert Keeps(s, s);
    if InFlight(s, t) {
      var task := s.starts.tasks[t];
      AfterPortKeepsRows(s, t, world);
      SettleKeepsRows(s, t, LeftAlone);
      forall phase ensures Keeps(s, SetTask(s, t, task.(phase := phase))) {}
      hide Keeps, Settle, AfterPort, PortTaken, SetTask;
    }
  }

  lemma WaitAndBuildKeepRows(s: Supervisor, t: TaskId, ok: bool, world: World)
    ensures Keeps(s, OnExitWaitOver(s, t)) && Keeps(s, OnBuildResult(s, t, ok, world))
  {
    if InFlight(s, t) {
      AfterBuildKeepsRows(s, t, world);
      SettleKeepsRows(s, t, FailedBeforeStart);
      hide Settle, AfterBuild, RecordCrashed;
    }
  }

  lemma TimerAndHandOverKeepRows(s: Supervisor, k: TimerId, q: nat, world: World)
    ensures Keeps(s, OnRestartTimer(s, k, world))
    ensures Keeps(s, OnInstallDone(s, q, world)) && Keeps(s, OnRestartResume(s, q, world))
  {
    assert Keeps(s, s);
    if k in s.queue.timers {
      var svc := s.queue.timers[k].svc;
      var s1 := s.(queue := s.queue.(timers := s.queue.timers - {k}, pending := s.queue.pending - {svc.name}));
      StartKeepsRows(s1, svc, true, true, world);
      assert Keeps(s, s1);
      KeepsThen(s, s1, Start(s1, svc, true, true, world));
    }
    if q < |s.requests| {
      var s2 := s.(requests := s.requests[q := s.requests[q].(phase := Handed)]);
      assert Keeps(s, s2);
      if s.requests[q].row < |s.rows| {
        var svc := s.rows[s.requests[q].row].svc;
        StartKeepsRows(s2, svc, true, false, world);
        StartKeepsRows(s2, svc, false, false, world);
        KeepsThen(s, s2, Start(s2, svc, true, false, world));
        KeepsThen(s, s2, Start(s2, svc, false, false, world));
      }
    }
    hide Keeps, Start;
  }


  lemma StartsKeepRows(s: Supervisor, e: Event)
    requires e.StartCall? || e.PortResult? || e.ExitWaitOver? || e.BuildResult? || e.RestartTimerFires?
          || e.InstallDone? || e.RestartResume?
    ensures Keeps(s, Step(s, e))
  {
    hide *;
    StepIs(s, e);
    if e.StartCall? { StartKeepsRows(s, e.svc, e.isRestart, false, e.world); }
    else if e.PortResult? { PortResultKeepsRows(s, e.task, e.bindable, e.world); }
    else if e.ExitWaitOver? { WaitAndBuildKeepRows(s, e.task, true, FINE); }
    else if e.BuildResult? { WaitAndBuildKeepRows(s, e.task, e.ok, e.world); }
    else if e.RestartTimerFires? { TimerAndHandOverKeepRows(s, e.timer, 0, e.world); }
    else { TimerAndHandOverKeepRows(s, 0, e.request, e.world); }
  }

  // ---------------------------------------------------------------- steps that signal nobody

  lemma CancelKeeps(s: Supervisor, n: Name)
    ensures Keeps(s, CancelRestart(s, n))
  {}

  lemma LineGoesOn(s: Supervisor, p: ChildId, matches: bool)
    ensures GoesOn(s, OnLine(s, p, matches))
  {}

  lemma WindowEndGoesOn(s: Supervisor, r: RowId)
    ensures GoesOn(s, OnStartupTimer(s, r))
  {}

  lemma ExitGoesOn(s: Supervisor, p: ChildId, intentionalStop: bool)
    requires p < |s.children| && s.children[p].row < |s.rows|
    ensures GoesOn(s, ChildGone(s, p)) && GoesOn(s, CountCrash(s, p, intentionalStop))
  {}

  lemma ScheduleGoesOn(s: Supervisor, p: ChildId)
    requires p < |s.children| && s.children[p].row < |s.rows|
    ensures GoesOn(s, ScheduleAutoRestart(s, p))
  {
    hide Pow2;
  }

  /** A change of status, health and stop mark. */
  lemma RowWriteGoesOn(s: Supervisor, r: RowId, st: ProcessState)
    requires r < |s.rows| && RowGoesOn(s.rows[r], st)
    ensures GoesOn(s, SetRow(s, r, st))
  {}

  lemma CloseGoesOn(s: Supervisor, p: ChildId, cleanExit: bool)
    ensures GoesOn(s, OnClose(s, p, cleanExit))
  {
    Stays(s);
    if p < |s.children| && s.children[p].row < |s.rows| {
      var s1, st := ChildGone(s, p), s.rows[s.children[p].row];
      var s2 := CountCrash(s1, p, st.intentionalStop);
      ExitGoesOn(s, p, false);
      ExitGoesOn(s1, p, false);
      ExitGoesOn(s1, p, st.intentionalStop);
      ScheduleGoesOn(s2, p);
      RowWriteGoesOn(s1, s.children[p].row, st.(intentionalStop := false));
      RowWriteGoesOn(s1, s.children[p].row, st.(intentionalStop := false, status := Stopped, health := Down));
      RowWriteGoesOn(s1, s.children[p].row, st.(status := Stopped, health := Down));
      hide GoesOn, ChildGone, CountCrash, ScheduleAutoRestart, SetRow;
      forall x, y | GoesOn(s, x) && GoesOn(x, y) ensures GoesOn(s, y) { GoesOnThen(s, x, y); }
    }
  }

  lemma DrainKeeps(s: Supervisor, q: nat)
    requires q < |s.requests|
    ensures Keeps(s, AfterDrain(s, q))
  {
    CancelKeeps(s, s.requests[q].name);
    hide CancelRestart;
  }

  lemma RequestsKeep(s: Supervisor, n: Name, q: nat)
    ensures Keeps(s, OnStartService(s, n)) && Keeps(s, OnDrainOver(s, q))
  {
    forall requests ensures Keeps(s, s.(requests := requests)) {}
    if q < |s.requests| { DrainKeeps(s, q); }
    if Registered(s, n) {
      var s1 := s.(requests := s.requests + [Request(n, s.state[n], Installing)]);
      DrainKeeps(s1, |s.requests|);
      KeepsThen(s, s1, AfterDrain(s1, |s.requests|));
    }
    hide Keeps, AfterDrain;
  }

  lemma EntryWritesGoOn(s: Supervisor, n: Name, flag: bool, suspended: bool)
    ensures GoesOn(s, OnBootMarksRunning(s, n)) && GoesOn(s, OnForgetHealth(s, n))
    ensures GoesOn(s, OnRemoteProbe(s, n, flag)) && GoesOn(s, Awake(s, n, flag, suspended))
  {
    Stays(s);
    if Registered(s, n) {
      var r, st := s.state[n], Entry(s, n);
      RowWriteGoesOn(s, r, st.(status := Running));
      RowWriteGoesOn(s, r, st.(health := if flag then Up else Down));
      RowWriteGoesOn(s, r, st.(status := Running, health := Up));
      RowWriteGoesOn(s, r, st.(status := TimedOut));
    }
    assert GoesOn(s, OnForgetHealth(s, n));
    hide GoesOn, SetRow, OnForgetHealth;
  }

  lemma RegistrationsKeep(s: Supervisor, svc: ServiceConfig, env: string)
    ensures Keeps(s, OnRegisterLazy(s, svc)) && Keeps(s, OnRegisterRemote(s, svc, env))
  {}

  lemma WrittenGoesOn(s: Supervisor, e: Event)
    ensures GoesOn(s, Written(s, e))
  {
    hide CancelRestart, Awake, GoesOn;
    Stays(s);
    if e.WakeBegin? {
      CancelKeeps(s, e.svc.name);
      KeepsGoesOn(s, CancelRestart(s, e.svc.name));
    }
    if e.WakeSettles? && Waking(s, e.wake) {
      EntryWritesGoOn(s, s.wakes[e.wake].name, e.reachable, s.wakes[e.wake].suspended);
    }
    if e.OnceReports? && Reporting(s, e.report) { EntryWritesGoOn(s, s.reports[e.report].name, true, true); }
  }

  lemma BesidePromises(s: Supervisor, x: Supervisor, wakes: seq<Wake>, reports: seq<Report>)
    requires GoesOn(s, x)
    ensures GoesOn(s, x.(wakes := wakes, reports := reports))
  {}

  lemma PromisesGoOn(s: Supervisor, e: Event)
    requires Promises(e)
    ensures GoesOn(s, Step(s, e))
  {
    hide *;
    PromisesAre(s, e);
    WrittenGoesOn(s, e);
    BesidePromises(s, Written(s, e), Step(s, e).wakes, Step(s, e).reports);
  }

  lemma Stays(s: Supervisor)
    ensures GoesOn(s, s)
  {}

  /** An event that stops a service, by hand or for being idle, or takes it out or restarts it. */
  predicate Stops(e: Event) {
    e.StopCall? || e.RemoveCall? || e.RestartServiceCall? || e.IdleStopCall?
  }

  lemma KeepsGoesOn(s: Supervisor, s': Supervisor)
    requires Keeps(s, s')
    ensures GoesOn(s, s') && ShowsSame(s, s')
  {}

  /** Steps that write no status and no health. */
  lemma SilentStepsKeep(s: Supervisor, e: Event)
    requires || e.StartCall? || e.PortResult? || e.ExitWaitOver? || e.BuildResult? || e.RestartTimerFires?
             || e.InstallDone? || e.RestartResume? || e.CancelCall? || e.StartServiceCall? || e.DrainOver?
             || e.RegisterLazyCall? || e.RegisterRemoteCall?
    ensures GoesOn(s, Step(s, e)) && ShowsSame(s, Step(s, e))
  {
    hide *;
    StepIs(s, e);
    if e.CancelCall? { CancelKeeps(s, e.name); }
    else if e.StartServiceCall? { RequestsKeep(s, e.name, 0); }
    else if e.DrainOver? { RequestsKeep(s, "", e.request); }
    else if e.RegisterLazyCall? { RegistrationsKeep(s, e.svc, ""); }
    else if e.RegisterRemoteCall? { RegistrationsKeep(s, e.svc, e.env); }
    else { StartsKeepRows(s, e); }
    KeepsGoesOn(s, Step(s, e));
  }

  /** Steps that signal nobody, move no service and probe none. */
  lemma QuietStepsGoOn(s: Supervisor, e: Event)
    requires !Stops(e) && !e.ForceStopCall? && !e.CleanupCall? && !e.GraceOver? && !e.RemoteCommit? && !e.LocalCommit?
    requires !e.PollBegin? && !e.PollResult? && !e.Tick?
    ensures GoesOn(s, Step(s, e))
  {
    StopsMeans(e);
    hide *;
    PromiseEvents(e);
    StepIs(s, e);
    if Promises(e) { PromisesGoOn(s, e); }
    else if e.Line? { LineGoesOn(s, e.child, e.matches); }
    else if e.StartupTimerFires? { WindowEndGoesOn(s, e.row); }
    else if e.Close? { CloseGoesOn(s, e.child, e.cleanExit); }
    else if e.BootMarksRunning? { EntryWritesGoOn(s, e.name, true, true); }
    else if e.ForgetHealthCall? { EntryWritesGoOn(s, e.name, true, true); }
    else if e.RemoteProbe? { EntryWritesGoOn(s, e.name, e.reachable, true); }
    else { SilentStepsKeep(s, e); }
  }

  lemma StopsMeans(e: Event)
    ensures Stops(e) <==> e.StopCall? || e.RemoveCall? || e.RestartServiceCall? || e.IdleStopCall?
  {}

  // ---------------------------------------------------------------- who is sent which signal

  /** The process that a stop or force-stop of the name acts on: the registered one, if it is there and lives. */
  predicate ActsOn(s: Supervisor, n: Name, q: ChildId) {
    && Registered(s, n) && Entry(s, n).proc == Some(q) && Entry(s, n).pid.Some?
    && q < |s.children| && !s.children[q].exited
  }

  /** The step sends the process SIGTERM: a stop of its service, or the shutdown. */
  predicate SendsTerm(s: Supervisor, e: Event, q: ChildId) {
    || (Stops(e) && ActsOn(s, e.name, q) && (e.IdleStopCall? ==> Entry(s, e.name).remote.None?))
    || (e.CleanupCall? && q in s.procs && q < |s.children| && s.children[q].spawned)
  }

  /** The step sends the process SIGKILL: a force-stop of its service, or the end of a grace period. */
  predicate SendsKill(s: Supervisor, e: Event, q: ChildId) {
    || (e.ForceStopCall? && ActsOn(s, e.name, q))
    || (e.GraceOver? && e.cleanup < |s.cleanups| && !s.cleanups[e.cleanup].killed
        && s.cleanups[e.cleanup].deadline <= s.clock && q in s.cleanups[e.cleanup].taken && Alive(s, q))
  }

  ghost predicate SignalsAre(s: Supervisor, e: Event, s': Supervisor, q: ChildId) {
    q < |s.children| ==>
      && q < |s'.children|
      && (s'.children[q].sigterm <==> s.children[q].sigterm || SendsTerm(s, e, q))
      && (s'.children[q].sigkill <==> s.children[q].sigkill || SendsKill(s, e, q))
  }

  /** Nothing but the signals that were sent. */
  ghost predicate Sent(s: Supervisor, s': Supervisor, q: ChildId, term: bool, kill: bool) {
    && |s'.children| == |s.children| && RowsGoOn(s, s') && s'.polls == s.polls && s'.clock == s.clock
    && (q < |s.children| ==>
          && (s'.children[q].sigterm <==> s.children[q].sigterm || term)
          && (s'.children[q].sigkill <==> s.children[q].sigkill || kill))
  }

  lemma SignalSends(s: Supervisor, n: Name, kill: bool, q: ChildId)
    ensures var s' := SignalService(s, n, kill);
            Sent(s, s', q, ActsOn(s, n, q) && !kill, ActsOn(s, n, q) && kill) && s'.state == s.state
  {}

  lemma StopSends(s: Supervisor, n: Name, q: ChildId)
    ensures var s' := StopService(s, n); Sent(s, s', q, ActsOn(s, n, q), false) && s'.state == s.state
  {
    CancelKeeps(s, n);
    var s1 := CancelRestart(s, n);
    assert ActsOn(s1, n, q) == ActsOn(s, n, q) && s1.children == s.children && s1.state == s.state;
    SignalSends(s1, n, false, q);
    hide CancelRestart, SignalService;
  }

  lemma ThenGoesOn(s: Supervisor, s1: Supervisor, s': Supervisor, q: ChildId, term: bool)
    requires Sent(s, s1, q, term, false) && GoesOn(s1, s') && |s'.children| == |s1.children|
    ensures Sent(s, s', q, term, false)
  {}

  lemma RemoveSends(s: Supervisor, n: Name, q: ChildId)
    ensures Sent(s, RemoveService(s, n), q, ActsOn(s, n, q), false)
  {
    if Registered(s, n) {
      var s1 := SignalService(s, n, false);
      var s2 := s1.(state := s.state - {n},
                    tallies := Tallies(s.tallies.removals[n := Generation(s, n) + 1], s.tallies.failures - {n}));
      assert GoesOn(s1, s2);
      SignalSends(s, n, false, q);
      CancelKeeps(s2, n);
      assert RemoveService(s, n) == CancelRestart(s2, n);
      assert CancelRestart(s2, n).children == s1.children;
      GoesOnThen(s1, s2, CancelRestart(s2, n));
      hide GoesOn, RemoveService, SignalService, CancelRestart, ActsOn;
      ThenGoesOn(s, s1, CancelRestart(s2, n), q, ActsOn(s, n, q));
    } else {
      assert Sent(s, s, q, false, false) && !ActsOn(s, n, q);
    }
  }

  lemma RestartSends(s: Supervisor, n: Name, q: ChildId)
    ensures Sent(s, OnRestartService(s, n), q, ActsOn(s, n, q), false)
  {
    StopSends(s, n, q);
    var s1 := StopService(s, n);
    hide StopService;
    if Registered(s, n) { ThenGoesOn(s, s1, OnRestartService(s, n), q, ActsOn(s, n, q)); }
  }

  lemma IdleSends(s: Supervisor, n: Name, q: ChildId)
    ensures Sent(s, OnIdleStop(s, n), q, ActsOn(s, n, q) && Entry(s, n).remote.None?, false)
  {
    StopSends(s, n, q);
    var s1 := StopService(s, n);
    hide StopService;
    if Registered(s, n) && Entry(s, n).remote.None? { ThenGoesOn(s, s1, OnIdleStop(s, n), q, ActsOn(s, n, q)); }
  }

  lemma ShutdownSends(s: Supervisor, graceMs: nat, k: nat, q: ChildId)
    ensures Sent(s, OnCleanup(s, graceMs), q, SendsTerm(s, CleanupCall(graceMs), q), false)
    ensures Sent(s, OnGraceOver(s, k), q, false, SendsKill(s, GraceOver(k), q))
  {
    var s1 := CancelAll(s.(closing := true));
    assert RowsGoOn(s, s1) && s1.children == s.children && s1.procs == s.procs && s1.polls == s.polls;
    assert Sent(s1, SignalAll(s1, graceMs), q, SendsTerm(s, CleanupCall(graceMs), q), false) by { hide CancelAll; }
    hide CancelAll, SignalAll;
  }

  lemma SendsAre(s: Supervisor, e: Event, q: ChildId)
    ensures e.StopCall? || e.RemoveCall? || e.RestartServiceCall? ==> (SendsTerm(s, e, q) <==> ActsOn(s, e.name, q))
    ensures e.IdleStopCall? ==> (SendsTerm(s, e, q) <==> ActsOn(s, e.name, q) && Entry(s, e.name).remote.None?)
    ensures e.ForceStopCall? ==> (SendsKill(s, e, q) <==> ActsOn(s, e.name, q))
    ensures !e.ForceStopCall? && !e.GraceOver? ==> !SendsKill(s, e, q)
    ensures !Stops(e) && !e.CleanupCall? ==> !SendsTerm(s, e, q)
  {
    hide Stoppable, Alive;
  }

  lemma OthersSend(s: Supervisor, e: Event, q: ChildId)
    requires !Stops(e) && !e.ForceStopCall? && !e.CleanupCall? && !e.GraceOver?
    ensures SignalsAre(s, e, Step(s, e), q)
  {
    SendsAre(s, e, q);
    hide Step, Stops, SendsTerm, SendsKill, Probed, WrittenOff, Probes, CountProbe;
    StepIs(s, e);
    if !(e.RemoteCommit? || e.LocalCommit? || e.PollBegin? || e.PollResult? || e.Tick?) {
      QuietStepsGoOn(s, e);
      hide *;
      GoingOnSendsNothing(s, e, Step(s, e), q);
    }
  }

  lemma GoingOnSendsNothing(s: Supervisor, e: Event, s': Supervisor, q: ChildId)
    requires GoesOn(s, s') && !SendsTerm(s, e, q) && !SendsKill(s, e, q)
    ensures SignalsAre(s, e, s', q)
  {
    hide SendsTerm, SendsKill;
  }

  lemma SentIs(s: Supervisor, e: Event, s': Supervisor, q: ChildId)
    requires Sent(s, s', q, SendsTerm(s, e, q), SendsKill(s, e, q))
    ensures SignalsAre(s, e, s', q)
  {
    hide SendsTerm, SendsKill;
  }

  /** Every signal that a step sends: SIGTERM goes to the process of a service that is stopped, restarted, idled
   *  or removed and to every process that the shutdown takes, SIGKILL to that of a service that is stopped by
   *  force and to what is left of a shutdown; nobody is ever sent the other of the two, or one unasked. */
  lemma SignalsExactly(s: Supervisor, e: Event, q: ChildId)
    ensures SignalsAre(s, e, Step(s, e), q)
  {
    StopsMeans(e);
    SendsAre(s, e, q);
    hide *;
    StepIs(s, e);
    if Stops(e) || e.ForceStopCall? || e.CleanupCall? || e.GraceOver? {
      if e.StopCall? { StopSends(s, e.name, q); }
      else if e.RemoveCall? { RemoveSends(s, e.name, q); }
      else if e.RestartServiceCall? { RestartSends(s, e.name, q); }
      else if e.IdleStopCall? { IdleSends(s, e.name, q); }
      else if e.ForceStopCall? { SignalSends(s, e.name, true, q); }
      else if e.CleanupCall? { ShutdownSends(s, e.graceMs, 0, q); }
      else { ShutdownSends(s, 0, e.cleanup, q); }
      SentIs(s, e, Step(s, e), q);
    } else {
      OthersSend(s, e, q);
    }
  }

  // ---------------------------------------------------------------- what every step leaves of the rows

  lemma SentKeepsPolls(s: Supervisor, e: Event)
    requires Stops(e) || e.ForceStopCall? || e.CleanupCall? || e.GraceOver?
    ensures Step(s, e).polls == s.polls && RowsGoOn(s, Step(s, e)) && Step(s, e).clock == s.clock
  {
    StopsMeans(e);
    hide Step, Stops;
    StepIs(s, e);
    if e.StopCall? { StopSends(s, e.name, 0); }
    else if e.RemoveCall? { RemoveSends(s, e.name, 0); }
    else if e.RestartServiceCall? { RestartSends(s, e.name, 0); }
    else if e.IdleStopCall? { IdleSends(s, e.name, 0); }
    else if e.ForceStopCall? { SignalSends(s, e.name, true, 0); }
    else if e.CleanupCall? { ShutdownSends(s, e.graceMs, 0, 0); }
    else { ShutdownSends(s, 0, e.cleanup, 0); }
  }

  lemma GoingOnKeepsPolls(s: Supervisor, s': Supervisor)
    requires GoesOn(s, s')
    ensures s'.polls == s.polls && s'.clock == s.clock && RowsGoOn(s, s')
  {}

  lemma RoundGoesOn(s: Supervisor, n: Name)
    ensures RowsGoOn(s, OnPollBegin(s, n)) && OnPollBegin(s, n).clock == s.clock
  {}

  lemma AnswerGoesOn(s: Supervisor, k: nat, ok: bool)
    ensures RowsGoOn(s, OnPollResult(s, k, ok)) && OnPollResult(s, k, ok).clock == s.clock
  {
    hide CountProbe, DeriveHealth;
  }

  lemma TimeGoesOn(s: Supervisor, ms: nat)
    ensures var s' := OnTick(s, ms); s'.polls == s.polls && s.clock <= s'.clock && RowsGoOn(s, s')
  {}

  /** Only a switch gives a row another configuration, place, process or start time, and time goes forward. */
  lemma StepRowsGoOn(s: Supervisor, e: Event)
    requires !e.RemoteCommit? && !e.LocalCommit?
    ensures RowsGoOn(s, Step(s, e)) && s.clock <= Step(s, e).clock
  {
    hide *;
    StepIs(s, e);
    StopsMeans(e);
    if e.PollBegin? { RoundGoesOn(s, e.name); }
    else if e.PollResult? { AnswerGoesOn(s, e.poll, e.ok); }
    else if Stops(e) || e.ForceStopCall? || e.CleanupCall? || e.GraceOver? { SentKeepsPolls(s, e); }
    else if e.Tick? { TimeGoesOn(s, e.ms); }
    else { QuietStepsGoOn(s, e); GoingOnKeepsPolls(s, Step(s, e)); }
  }
}
