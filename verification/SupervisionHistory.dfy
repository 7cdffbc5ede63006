/** What only ever moves one way: children are never forgotten, a settled start stays settled,
 *  removals only count up, and after `closing` no child is added. */
module SupervisionHistory {
  import opened Options
  import opened Supervision

  ghost predicate ChildAged(a: seq<Child>, b: seq<Child>, p: int) {
    0 <= p < |a| ==>
      && p < |b|
      && b[p].svc == a[p].svc && b[p].row == a[p].row && b[p].spawned == a[p].spawned
      && (a[p].exited ==> b[p] == a[p].(sigterm := b[p].sigterm, sigkill := b[p].sigkill))
      && (a[p].stopped ==> b[p].stopped) && (a[p].sigterm ==> b[p].sigterm) && (a[p].sigkill ==> b[p].sigkill)
  }

  predicate Overtaken(removals: map<Name, nat>, task: StartTask) {
    task.generation < (if task.svc.name in removals then removals[task.svc.name] else 0)
  }

  predicate DidSpawn(task: StartTask) {
    task.phase.Settled? && task.phase.outcome.Spawned?
  }

  /** A start that a removal has overtaken does not spawn, and a settled start stays as it is. */
  ghost predicate TaskAged(a: seq<StartTask>, b: seq<StartTask>, removals: map<Name, nat>, t: int) {
    0 <= t < |a| ==>
      && t < |b|
      && b[t].svc == a[t].svc && b[t].generation == a[t].generation
      && (a[t].phase.Settled? ==> b[t].phase == a[t].phase)
      && (!a[t].phase.Settled? && Overtaken(removals, a[t]) ==> !DidSpawn(b[t]))
  }

  /** A start never expects more removals than there have been. */
  ghost predicate FreshTaskOk(a: seq<StartTask>, b: seq<StartTask>, removals: map<Name, nat>, t: int) {
    |a| <= t < |b| && t >= 0 ==> b[t].generation <= (if b[t].svc.name in removals then removals[b[t].svc.name] else 0)
  }

  predicate Lives(children: seq<Child>, p: int) {
    0 <= p < |children| && children[p].spawned && !children[p].exited
  }

  /** A cleanup keeps its list, and once its grace is over every process of the list that still
   *  lives has been sent SIGKILL. */
  ghost predicate CleanupAged(a: seq<Cleanup>, b: seq<Cleanup>, ca: seq<Child>, cb: seq<Child>, k: int) {
    0 <= k < |a| ==>
      && k < |b|
      && b[k].taken == a[k].taken && b[k].deadline == a[k].deadline
      && (a[k].killed ==> b[k].killed)
      && (!a[k].killed && b[k].killed ==>
            forall p :: p in a[k].taken && Lives(cb, p) && p < |ca| ==> cb[p].sigkill)
  }

  ghost predicate RemovalAged(a: map<Name, nat>, b: map<Name, nat>, n: Name) {
    n in a ==> n in b && a[n] <= b[n]
  }

  /** `b` can come after `a` in a run. */
  ghost predicate Ages(a: Supervisor, b: Supervisor) {
    && (a.closing ==> b.closing && |b.children| == |a.children|)
    && (forall p :: ChildAged(a.children, b.children, p))
    && (forall t :: TaskAged(a.starts.tasks, b.starts.tasks, a.tallies.removals, t))
    && (forall t :: FreshTaskOk(a.starts.tasks, b.starts.tasks, b.tallies.removals, t))
    && (forall k :: CleanupAged(a.cleanups, b.cleanups, a.children, b.children, k))
    && (forall n :: RemovalAged(a.tallies.removals, b.tallies.removals, n))
  }

  lemma AgesTransitive(a: Supervisor, b: Supervisor, c: Supervisor)
    requires Ages(a, b) && Ages(b, c)
    ensures Ages(a, c)
  {
    forall p ensures ChildAged(a.children, c.children, p) {
      assert ChildAged(a.children, b.children, p) && ChildAged(b.children, c.children, p);
    }
    forall n ensures RemovalAged(a.tallies.removals, c.tallies.removals, n) {
      assert RemovalAged(a.tallies.removals, b.tallies.removals, n)
             && RemovalAged(b.tallies.removals, c.tallies.removals, n);
    }
    forall t ensures TaskAged(a.starts.tasks, c.starts.tasks, a.tallies.removals, t) {
      assert TaskAged(a.starts.tasks, b.starts.tasks, a.tallies.removals, t)
             && TaskAged(b.starts.tasks, c.starts.tasks, b.tallies.removals, t);
      if 0 <= t < |a.starts.tasks| {
        assert RemovalAged(a.tallies.removals, b.tallies.removals, a.starts.tasks[t].svc.name);
      }
    }
    forall t ensures FreshTaskOk(a.starts.tasks, c.starts.tasks, c.tallies.removals, t) {
      assert FreshTaskOk(a.starts.tasks, b.starts.tasks, b.tallies.removals, t)
             && FreshTaskOk(b.starts.tasks, c.starts.tasks, c.tallies.removals, t);
      if 0 <= t < |b.starts.tasks| {
        assert TaskAged(b.starts.tasks, c.starts.tasks, b.tallies.removals, t);
        assert RemovalAged(b.tallies.removals, c.tallies.removals, b.starts.tasks[t].svc.name);
      }
    }
    forall k ensures CleanupAged(a.cleanups, c.cleanups, a.children, c.children, k) {
      assert CleanupAged(a.cleanups, b.cleanups, a.children, b.children, k);
      assert CleanupAged(b.cleanups, c.cleanups, b.children, c.children, k);
      if 0 <= k < |a.cleanups| {
        forall p | p in a.cleanups[k].taken && Lives(c.children, p) && p < |a.children|
                 && !a.cleanups[k].killed && c.cleanups[k].killed
          ensures c.children[p].sigkill
        {
          assert ChildAged(a.children, b.children, p) && ChildAged(b.children, c.children, p);
        }
      }
    }
  }

  /** Nothing of the history changes. */
  ghost predicate SameHistory(a: Supervisor, b: Supervisor) {
    b.closing == a.closing && b.children == a.children && b.starts.tasks == a.starts.tasks
    && b.cleanups == a.cleanups && b.tallies.removals == a.tallies.removals
  }

  lemma SameHistoryAges(a: Supervisor, b: Supervisor)
    requires SameHistory(a, b)
    ensures Ages(a, b)
  {}

  /** Only children change, and none is added. */
  lemma ChildrenAge(a: Supervisor, b: Supervisor)
    requires SameHistory(a, b.(children := a.children)) && |b.children| == |a.children|
    requires forall p :: ChildAged(a.children, b.children, p)
    ensures Ages(a, b)
  {}

  lemma SignalAges(s: Supervisor, n: Name, kill: bool)
    ensures Ages(s, SignalService(s, n, kill))
  {
    ChildrenAge(s, SignalService(s, n, kill));
  }

  lemma StopAges(s: Supervisor, n: Name)
    ensures Ages(s, StopService(s, n))
  {
    SameHistoryAges(s, CancelRestart(s, n));
    SignalAges(CancelRestart(s, n), n, false);
    AgesTransitive(s, CancelRestart(s, n), StopService(s, n));
  }

  lemma RemoveAges(s: Supervisor, n: Name)
    ensures Ages(s, RemoveService(s, n))
  {
    if Registered(s, n) {
      var s1 := SignalService(s, n, false);
      SignalAges(s, n, false);
      var s2 := s1.(tallies := s.tallies.(removals := s.tallies.removals[n := Generation(s, n) + 1]));
      assert Ages(s1, s2);
      SameHistoryAges(s2, RemoveService(s, n));
      AgesTransitive(s, s1, s2);
      AgesTransitive(s, s2, RemoveService(s, n));
    }
  }

  // ---------------------------------------------------------------- starting

  /** A start may spawn only when no removal has overtaken it. */
  lemma TasksAge(s: Supervisor, s': Supervisor, t: TaskId)
    requires InFlight(s, t) && SameHistory(s, s'.(starts := s.starts))
    requires |s'.starts.tasks| == |s.starts.tasks| && s'.starts.tasks == s.starts.tasks[t := s'.starts.tasks[t]]
    requires s'.starts.tasks[t].svc == s.starts.tasks[t].svc
             && s'.starts.tasks[t].generation == s.starts.tasks[t].generation
    requires DidSpawn(s'.starts.tasks[t]) ==> !Overtaken(s.tallies.removals, s.starts.tasks[t])
    ensures Ages(s, s')
  {
    forall x ensures TaskAged(s.starts.tasks, s'.starts.tasks, s.tallies.removals, x) {}
  }

  lemma SpawnAges(s: Supervisor, t: TaskId, succeeds: bool)
    requires InFlight(s, t) && !s.closing && !Overtaken(s.tallies.removals, s.starts.tasks[t])
    ensures Ages(s, Spawn(s, t, succeeds))
  {
    var s' := Spawn(s, t, succeeds);
    assert s'.starts.tasks == s.starts.tasks[t := s'.starts.tasks[t]];
    forall x ensures TaskAged(s.starts.tasks, s'.starts.tasks, s.tallies.removals, x) {}
    forall p ensures ChildAged(s.children, s'.children, p) {}
    forall k ensures CleanupAged(s.cleanups, s'.cleanups, s.children, s'.children, k) {}
  }

  lemma EnterAges(s: Supervisor, task: StartTask)
    requires task.generation == Generation(s, task.svc.name)
    ensures Ages(s, Enter(s, task))
  {}

  lemma JoinAges(s: Supervisor, t: TaskId)
    requires t < |s.starts.tasks|
    ensures Ages(s, SetTask(s, t, s.starts.tasks[t].(auto := true)))
  {
    var s' := SetTask(s, t, s.starts.tasks[t].(auto := true));
    forall x ensures TaskAged(s.starts.tasks, s'.starts.tasks, s.tallies.removals, x) {}
  }

  lemma AfterBuildAges(s: Supervisor, t: TaskId, world: World)
    requires InFlight(s, t)
    ensures Ages(s, AfterBuild(s, t, world))
  {
    hide Ages;
    var task := s.starts.tasks[t];
    if world.watchPathsExist && Generation(s, task.svc.name) == task.generation && !s.closing {
      SpawnAges(s, t, world.spawnSucceeds);
    } else {
      TasksAge(s, AfterBuild(s, t, world), t);
    }
  }

  lemma AfterPortAges(s: Supervisor, t: TaskId, world: World)
    requires InFlight(s, t)
    ensures Ages(s, AfterPort(s, t, world))
  {
    var task := s.starts.tasks[t];
    var s1 := ClearStartupTimer(s, task.svc.name, None);
    SameHistoryAges(s, s1);
    if !task.svc.hasPreBuild { AfterBuildAges(s1, t, world); }
    else { TasksAge(s1, AfterPort(s, t, world), t); }
    AgesTransitive(s, s1, AfterPort(s, t, world));
  }

  lemma StartAges(s: Supervisor, svc: ServiceConfig, isRestart: bool, auto: bool, world: World)
    ensures Ages(s, Start(s, svc, isRestart, auto, world))
  {
    hide Ages;
    var s' := Start(s, svc, isRestart, auto, world);
    if svc.name in s.starts.starting {
      SameHistoryAges(s, s);
      if auto && s.starts.starting[svc.name] < |s.starts.tasks| { JoinAges(s, s.starts.starting[svc.name]); }
    } else {
      var t := |s.starts.tasks|;
      var task := StartTask(svc, isRestart, Generation(s, svc.name), auto, PortCheck);
      var s1 := Enter(s, task);
      EnterAges(s, task);
      if s.closing || (Registered(s, svc.name) && Entry(s, svc.name).remote.Some?) { TasksAge(s1, s', t); }
      else if svc.isApi { SameHistoryAges(s1, s'); }
      else { AfterPortAges(s1, t, world); }
      AgesTransitive(s, s1, s');
    }
  }

  lemma PortResultAges(s: Supervisor, t: TaskId, bindable: bool, world: World)
    ensures Ages(s, OnPortResult(s, t, bindable, world))
  {
    hide Ages;
    var s' := OnPortResult(s, t, bindable, world);
    if InFlight(s, t) && (s.starts.tasks[t].phase.PortCheck? || s.starts.tasks[t].phase.PortRecheck?) {
      if bindable || (s.starts.tasks[t].phase.PortCheck? && s.starts.tasks[t].isRestart) { AfterPortAges(s, t, world); }
      else { TasksAge(s, s', t); }
    } else { SameHistoryAges(s, s'); }
  }

  lemma WaitAndBuildAge(s: Supervisor, t: TaskId, ok: bool, world: World)
    ensures Ages(s, OnExitWaitOver(s, t)) && Ages(s, OnBuildResult(s, t, ok, world))
  {
    hide Ages;
    SameHistoryAges(s, s);
    if InFlight(s, t) {
      if s.starts.tasks[t].phase.ExitWait? { TasksAge(s, SetTask(s, t, s.starts.tasks[t].(phase := PortRecheck)), t); }
      if s.starts.tasks[t].phase.Building? {
        if ok { AfterBuildAges(s, t, world); } else { TasksAge(s, OnBuildResult(s, t, ok, world), t); }
      }
    }
  }

  lemma HandOverAges(s: Supervisor, q: nat, world: World)
    ensures Ages(s, OnInstallDone(s, q, world)) && Ages(s, OnRestartResume(s, q, world))
  {
    SameHistoryAges(s, s);
    if q < |s.requests| {
      var req := s.requests[q];
      var s1 := s.(requests := s.requests[q := req.(phase := Handed)]);
      SameHistoryAges(s, s1);
      if Registered(s, req.name) && req.row < |s.rows| {
        var svc := s.rows[req.row].svc;
        StartAges(s1, svc, false, false, world);
        StartAges(s1, svc, true, false, world);
        AgesTransitive(s, s1, Start(s1, svc, false, false, world));
        AgesTransitive(s, s1, Start(s1, svc, true, false, world));
      }
    }
  }

  lemma RestartTimerAges(s: Supervisor, timer: TimerId, world: World)
    ensures Ages(s, OnRestartTimer(s, timer, world))
  {
    SameHistoryAges(s, s);
    if RestartTimerDue(s, timer) {
      var svc := s.queue.timers[timer].svc;
      var s1 := s.(queue := s.queue.(timers := s.queue.timers - {timer}, pending := s.queue.pending - {svc.name}));
      SameHistoryAges(s, s1);
      StartAges(s1, svc, true, true, world);
      AgesTransitive(s, s1, OnRestartTimer(s, timer, world));
    }
  }

  lemma RequestsAge(s: Supervisor, n: Name, q: nat)
    ensures Ages(s, OnStartService(s, n)) && Ages(s, OnDrainOver(s, q))
  {
    hide Ages;
    SameHistoryAges(s, OnStartService(s, n));
    SameHistoryAges(s, OnDrainOver(s, q));
  }

  lemma RestartServiceAges(s: Supervisor, n: Name)
    ensures Ages(s, OnRestartService(s, n))
  {
    StopAges(s, n);
    SameHistoryAges(StopService(s, n), if Registered(s, n) then OnRestartService(s, n) else StopService(s, n));
    SameHistoryAges(s, s);
    if Registered(s, n) { AgesTransitive(s, StopService(s, n), OnRestartService(s, n)); }
  }

  lemma IdleStopAges(s: Supervisor, n: Name)
    ensures Ages(s, OnIdleStop(s, n))
  {
    StopAges(s, n);
    SameHistoryAges(s, s);
    if Registered(s, n) && Entry(s, n).remote.None? {
      SameHistoryAges(StopService(s, n), OnIdleStop(s, n));
      AgesTransitive(s, StopService(s, n), OnIdleStop(s, n));
    }
  }

  // ---------------------------------------------------------------- children and shutdown

  /** Whatever is written, of the history only child `p` changes, and it ages. */
  ghost predicate OnlyChildAges(a: Supervisor, b: Supervisor, p: ChildId) {
    && p < |a.children| && |b.children| == |a.children|
    && SameHistory(a, b.(children := a.children))
    && b.children == a.children[p := b.children[p]]
    && ChildAged(a.children, b.children, p)
  }

  lemma ChildGoneAges(s: Supervisor, p: ChildId)
    requires p < |s.children| && !s.children[p].exited
    ensures OnlyChildAges(s, ChildGone(s, p), p)
  {}

  lemma CountCrashChanges(s: Supervisor, p: ChildId, intentionalStop: bool)
    requires p < |s.children| && s.children[p].row < |s.rows|
    ensures var s' := CountCrash(s, p, intentionalStop);
            SameHistory(s.(children := s.children[p := s.children[p].(crashCounted := true)]), s')
  {}

  lemma ScheduleChanges(s: Supervisor, p: ChildId)
    requires p < |s.children| && s.children[p].row < |s.rows|
    ensures var s' := ScheduleAutoRestart(s, p);
            || SameHistory(s, s')
            || SameHistory(s.(children := s.children[p := s.children[p].(requeued := true)]), s')
  {}

  lemma CloseChangesOneChild(s: Supervisor, p: ChildId, cleanExit: bool)
    requires p < |s.children| && !s.children[p].exited && s.children[p].row < |s.rows|
    ensures OnlyChildAges(s, OnClose(s, p, cleanExit), p)
  {
    ChildGoneAges(s, p);
    var s1 := ChildGone(s, p);
    hide ChildGone, CountCrash, ScheduleAutoRestart;
    var st := s1.rows[s.children[p].row];
    CountCrashChanges(s1, p, false);
    if s.children[p].spawned && !st.intentionalStop && !cleanExit {
      ScheduleChanges(CountCrash(s1, p, false), p);
    }
  }

  lemma CloseAges(s: Supervisor, p: ChildId, cleanExit: bool)
    ensures Ages(s, OnClose(s, p, cleanExit))
  {
    hide SameHistory, Ages;
    if p < |s.children| && !s.children[p].exited && s.children[p].row < |s.rows| {
      CloseChangesOneChild(s, p, cleanExit);
      hide OnClose;
      var s' := OnClose(s, p, cleanExit);
      forall x ensures ChildAged(s.children, s'.children, x) {
        if x != p { assert 0 <= x < |s.children| ==> s'.children[x] == s.children[x]; }
      }
      ChildrenAge(s, s');
    } else { SameHistoryAges(s, s); }
  }

  lemma CleanupAges(s: Supervisor, graceMs: nat)
    ensures Ages(s, OnCleanup(s, graceMs))
  {
    var s1 := CancelAll(s.(closing := true));
    assert Ages(s, s1);
    var s' := OnCleanup(s, graceMs);
    if s1.procs != {} {
      forall p ensures ChildAged(s1.children, s'.children, p) {}
      forall k ensures CleanupAged(s1.cleanups, s'.cleanups, s1.children, s'.children, k) {}
      assert Ages(s1, s');
      AgesTransitive(s, s1, s');
    }
  }

  lemma GraceOverAges(s: Supervisor, k: nat)
    ensures Ages(s, OnGraceOver(s, k))
  {
    if k < |s.cleanups| && !s.cleanups[k].killed && s.cleanups[k].deadline <= s.clock {
      var s' := OnGraceOver(s, k);
      forall p ensures ChildAged(s.children, s'.children, p) {}
      forall x ensures CleanupAged(s.cleanups, s'.cleanups, s.children, s'.children, x) {
        forall p | p in s.cleanups[k].taken && Lives(s'.children, p) && p < |s.children|
          ensures s'.children[p].sigkill
        {
          assert Alive(s, p);
        }
      }
    } else { SameHistoryAges(s, s); }
  }

  /** Steps that write state objects, timers or polls only. */
  lemma QuietTimerSteps(s: Supervisor, n: Name, p: nat, ok: bool)
    ensures SameHistory(s, OnLine(s, p, ok)) && SameHistory(s, OnStartupTimer(s, p))
    ensures SameHistory(s, CancelRestart(s, n)) && SameHistory(s, OnTick(s, p))
  {}

  lemma QuietPollSteps(s: Supervisor, n: Name, k: nat, ok: bool)
    ensures SameHistory(s, OnPollBegin(s, n)) && SameHistory(s, OnPollResult(s, k, ok))
            && SameHistory(s, OnForgetHealth(s, n))
  {}

  lemma QuietEntrySteps(s: Supervisor, n: Name, reachable: bool, suspended: bool)
    ensures SameHistory(s, OnBootMarksRunning(s, n)) && SameHistory(s, Awake(s, n, reachable, suspended))
    ensures SameHistory(s, OnRemoteProbe(s, n, reachable))
  {}

  lemma QuietPromises(s: Supervisor, e: Event)
    requires Promises(e)
    ensures SameHistory(s, Step(s, e))
  {
    PromisesAre(s, e);
    hide Step;
    if e.WakeBegin? { QuietTimerSteps(s, e.svc.name, 0, true); }
  }

  lemma QuietRegistrations(s: Supervisor, svc: ServiceConfig, env: string, r: RowId)
    ensures SameHistory(s, OnRegisterLazy(s, svc)) && SameHistory(s, OnRegisterRemote(s, svc, env))
    ensures SameHistory(s, OnRemoteCommit(s, r, svc, env)) && SameHistory(s, OnLocalCommit(s, r, svc))
  {}

  lemma QuietSteps(s: Supervisor, e: Event)
    requires e.Tick? || e.Line? || e.StartupTimerFires? || e.CancelCall? || e.PollBegin? || e.PollResult?
          || e.ForgetHealthCall? || e.BootMarksRunning? || e.RegisterLazyCall? || e.RegisterRemoteCall?
          || e.RemoteCommit? || e.LocalCommit? || e.RemoteProbe? || Promises(e)
    ensures SameHistory(s, Step(s, e))
  {
    hide *;
    StepIs(s, e);
    PromiseEvents(e);
    match e
    case Tick(ms) => QuietTimerSteps(s, "", ms, true);
    case Line(p, matches) => QuietTimerSteps(s, "", p, matches);
    case StartupTimerFires(r) => QuietTimerSteps(s, "", r, true);
    case CancelCall(n) => QuietTimerSteps(s, n, 0, true);
    case PollBegin(n) => QuietPollSteps(s, n, 0, true);
    case PollResult(k, ok) => QuietPollSteps(s, "", k, ok);
    case ForgetHealthCall(n) => QuietPollSteps(s, n, 0, true);
    case BootMarksRunning(n) => QuietEntrySteps(s, n, true, true);
    case WakeBegin(svc) => QuietPromises(s, e);
    case WakeSettles(w, reachable) => QuietPromises(s, e);
    case WakeGivesUp(w) => QuietPromises(s, e);
    case OnceSettles(svc, reachable) => QuietPromises(s, e);
    case OnceReports(k) => QuietPromises(s, e);
    case RemoteProbe(n, reachable) => QuietEntrySteps(s, n, reachable, true);
    case RegisterLazyCall(svc) => QuietRegistrations(s, svc, "", 0);
    case RegisterRemoteCall(svc, env) => QuietRegistrations(s, svc, env, 0);
    case RemoteCommit(r, svc, env) => QuietRegistrations(s, svc, env, r);
    case LocalCommit(r, svc) => QuietRegistrations(s, svc, "", r);
  }

  /** One step forgets nothing. */
  lemma StepAges(s: Supervisor, e: Event)
    ensures Ages(s, Step(s, e))
  {
    hide *;
    StepIs(s, e);
    PromiseEvents(e);
    match e
    case StartCall(svc, isRestart, world) => StartAges(s, svc, isRestart, false, world);
    case PortResult(t, bindable, world) => PortResultAges(s, t, bindable, world);
    case ExitWaitOver(t) => WaitAndBuildAge(s, t, true, World(true, true));
    case BuildResult(t, ok, world) => WaitAndBuildAge(s, t, ok, world);
    case Close(p, cleanExit) => CloseAges(s, p, cleanExit);
    case RestartTimerFires(timer, world) => RestartTimerAges(s, timer, world);
    case StopCall(n) => StopAges(s, n);
    case ForceStopCall(n) => SignalAges(s, n, true);
    case RemoveCall(n) => RemoveAges(s, n);
    case IdleStopCall(n) => IdleStopAges(s, n);
    case StartServiceCall(n) => RequestsAge(s, n, 0);
    case DrainOver(q) => RequestsAge(s, "", q);
    case InstallDone(q, world) => HandOverAges(s, q, world);
    case RestartServiceCall(n) => RestartServiceAges(s, n);
    case RestartResume(q, world) => HandOverAges(s, q, world);
    case CleanupCall(graceMs) => CleanupAges(s, graceMs);
    case GraceOver(k) => GraceOverAges(s, k);
    case _ => QuietSteps(s, e); SameHistoryAges(s, Step(s, e));
  }

  lemma {:induction false} RunAges(s: Supervisor, events: seq<Event>)
    ensures Ages(s, Run(s, events))
    decreases |events|
  {
    hide Step;
    SameHistoryAges(s, s);
    if events != [] {
      StepAges(s, events[0]);
      RunAges(Step(s, events[0]), events[1..]);
      AgesTransitive(s, Step(s, events[0]), Run(s, events));
    }
  }
}
