/** The process manager performs the step machine: any sequence of events that the machine can take, the
 *  objects take with it, so what is proved of runs holds for them. */
module ManagerRuns {
  import opened Options
  import opened Supervision
  import opened SupervisionInvariants
  import opened SupervisionSafety
  import opened ProcessManagement

  // ---------------------------------------------------------------- events that name objects by number

  method DeliverLine(mgr: ProcessManager, p: ChildId, matches: bool)
    requires mgr.Valid()
    modifies mgr`windows, mgr.rows
    ensures mgr.Valid() && mgr.View() == OnLine(old(mgr.View()), p, matches)
  {
    mgr.SizesViewed();
    if p < |mgr.children| {
      mgr.ChildViewed(mgr.children[p]);
      if !mgr.children[p].exited { mgr.OnLine(mgr.children[p], matches); }
    }
  }

  method DeliverClose(mgr: ProcessManager, p: ChildId, cleanExit: bool)
    requires mgr.Valid()
    modifies mgr`procs, mgr`windows, mgr`queue, mgr.rows, mgr.children
    ensures mgr.Valid() && mgr.View() == OnClose(old(mgr.View()), p, cleanExit)
  {
    mgr.SizesViewed();
    if p < |mgr.children| {
      mgr.ChildViewed(mgr.children[p]);
      hide ProcessManager.View;
      if !mgr.children[p].exited { mgr.OnClose(mgr.children[p], cleanExit); }
    }
  }

  method FireStartupTimer(mgr: ProcessManager, r: RowId)
    requires mgr.Valid()
    modifies mgr`windows, mgr.rows
    ensures mgr.Valid() && mgr.View() == OnStartupTimer(old(mgr.View()), r)
  {
    mgr.SizesViewed();
    hide ProcessManager.View;
    if r < |mgr.rows| && r in mgr.windows.due && mgr.windows.due[r] <= mgr.clock { mgr.OnStartupTimer(mgr.rows[r]); }
  }

  method FireRestartTimer(mgr: ProcessManager, timer: TimerId, world: World)
    requires mgr.Valid()
    modifies mgr`queue, mgr`starts, mgr`windows, mgr`rows, mgr`state, mgr`children, mgr`procs, mgr.rows
    ensures mgr.Valid() && mgr.Grown() && mgr.View() == OnRestartTimer(old(mgr.View()), timer, world)
  {
    mgr.SizesViewed();
    hide ProcessManager.View;
    if timer in mgr.queue.timers && mgr.queue.timers[timer].due <= mgr.clock { mgr.OnRestartTimer(timer, world); }
  }

  method EndGrace(mgr: ProcessManager, k: nat)
    requires mgr.Valid()
    modifies mgr`cleanups, mgr.children
    ensures mgr.Valid() && mgr.View() == OnGraceOver(old(mgr.View()), k)
  {
    mgr.SizesViewed();
    assert mgr.View().cleanups == mgr.cleanups;
    hide ProcessManager.View;
    if k < |mgr.cleanups| && !mgr.cleanups[k].killed && mgr.cleanups[k].deadline <= mgr.clock { mgr.OnGraceOver(k); }
  }

  method AnswerPoll(mgr: ProcessManager, k: nat, ok: bool)
    requires mgr.Valid()
    modifies mgr`polls, mgr`tallies, mgr.rows
    ensures mgr.Valid() && mgr.View() == OnPollResult(old(mgr.View()), k, ok)
  {
    mgr.SizesViewed();
    hide ProcessManager.View;
    if k < |mgr.polls| && mgr.polls[k].open { mgr.OnPollResult(k, ok); }
  }

  method SettleWake(mgr: ProcessManager, w: nat, reachable: Option<bool>)
    requires mgr.Valid()
    modifies mgr`wakes, mgr.rows
    ensures mgr.Valid()
    ensures mgr.View() == if reachable.Some? then OnWakeSettles(old(mgr.View()), w, reachable.value)
                          else OnWakeGivesUp(old(mgr.View()), w)
  {
    mgr.SizesViewed();
    hide ProcessManager.View, Awake;
    if w < |mgr.wakes| && mgr.wakes[w].open {
      if reachable.Some? { mgr.WakeSettles(w, reachable.value); } else { mgr.EndWake(w); }
    }
  }

  method SayReady(mgr: ProcessManager, k: nat)
    requires mgr.Valid()
    modifies mgr`reports, mgr.rows
    ensures mgr.Valid() && mgr.View() == OnOnceReports(old(mgr.View()), k)
  {
    mgr.SizesViewed();
    hide ProcessManager.View, Awake;
    if k < |mgr.reports| && mgr.reports[k].open { mgr.OnceReports(k); }
  }

  method CommitRow(mgr: ProcessManager, r: RowId, svc: ServiceConfig, env: Option<string>)
    requires mgr.Valid()
    modifies mgr.rows
    ensures mgr.Valid()
    ensures mgr.View() == if env.Some? then OnRemoteCommit(old(mgr.View()), r, svc, env.value)
                          else OnLocalCommit(old(mgr.View()), r, svc)
  {
    mgr.SizesViewed();
    if r < |mgr.rows| {
      mgr.RowViewed(mgr.rows[r]);
      hide ProcessManager.View;
      if svc.name == mgr.rows[r].svc.name {
        if env.Some? { mgr.RemoteCommit(mgr.rows[r], svc, env.value); } else { mgr.LocalCommit(mgr.rows[r], svc); }
      }
    }
  }

  // ---------------------------------------------------------------- one event

  /** Starts and what follows from them. */
  method PerformStart(mgr: ProcessManager, e: Event)
    requires mgr.Valid()
    requires e.StartCall? || e.PortResult? || e.ExitWaitOver? || e.BuildResult? || e.RestartTimerFires?
          || e.InstallDone? || e.RestartResume?
    modifies mgr, mgr.rows, mgr.children
    ensures mgr.Valid() && mgr.Grown() && mgr.View() == Step(old(mgr.View()), e)
  {
    hide *;
    StepIs(mgr.View(), e);
    match e
    case StartCall(svc, isRestart, world) => mgr.Start(svc, isRestart, false, world);
    case PortResult(t, bindable, world) => mgr.OnPortResult(t, bindable, world);
    case ExitWaitOver(t) => mgr.OnExitWaitOver(t); Unchanged(mgr);
    case BuildResult(t, ok, world) => mgr.OnBuildResult(t, ok, world);
    case RestartTimerFires(timer, world) => FireRestartTimer(mgr, timer, world);
    case InstallDone(q, world) => mgr.OnInstallDone(q, world);
    case RestartResume(q, world) => mgr.OnRestartResume(q, world);
  }

  twostate lemma Unchanged(mgr: ProcessManager)
    requires mgr.rows == old(mgr.rows) && mgr.children == old(mgr.children)
    ensures mgr.Grown()
  {}

  /** Stops, cancels and removals. */
  method PerformStop(mgr: ProcessManager, e: Event)
    requires mgr.Valid()
    requires e.StopCall? || e.ForceStopCall? || e.CancelCall? || e.RemoveCall?
    modifies mgr, mgr.rows, mgr.children
    ensures mgr.Valid() && mgr.View() == Step(old(mgr.View()), e)
    ensures mgr.rows == old(mgr.rows) && mgr.children == old(mgr.children)
  {
    hide *;
    StepIs(mgr.View(), e);
    match e
    case StopCall(n) => mgr.Stop(n);
    case ForceStopCall(n) => mgr.Signal(n, true);
    case CancelCall(n) => mgr.Cancel(n);
    case RemoveCall(n) => mgr.Remove(n);
  }

  /** Shutdowns and idle stops. */
  method PerformShutdown(mgr: ProcessManager, e: Event)
    requires mgr.Valid()
    requires e.CleanupCall? || e.GraceOver? || e.IdleStopCall?
    modifies mgr, mgr.rows, mgr.children
    ensures mgr.Valid() && mgr.View() == Step(old(mgr.View()), e)
    ensures mgr.rows == old(mgr.rows) && mgr.children == old(mgr.children)
  {
    hide *;
    StepIs(mgr.View(), e);
    match e
    case CleanupCall(graceMs) => mgr.OnCleanup(graceMs);
    case GraceOver(k) => EndGrace(mgr, k);
    case IdleStopCall(n) => mgr.IdleStop(n);
  }

  /** Explicit starts and restarts on their way to the spawner. */
  method PerformRequest(mgr: ProcessManager, e: Event)
    requires mgr.Valid()
    requires e.StartServiceCall? || e.DrainOver? || e.RestartServiceCall?
    modifies mgr, mgr.rows, mgr.children
    ensures mgr.Valid() && mgr.View() == Step(old(mgr.View()), e)
    ensures mgr.rows == old(mgr.rows) && mgr.children == old(mgr.children)
  {
    hide *;
    StepIs(mgr.View(), e);
    match e
    case StartServiceCall(n) => mgr.OnStartService(n);
    case DrainOver(q) => mgr.OnDrainOver(q);
    case RestartServiceCall(n) => mgr.OnRestartService(n);
  }

  /** What children and the clock report. */
  method PerformReport(mgr: ProcessManager, e: Event)
    requires mgr.Valid()
    requires e.Line? || e.Close? || e.StartupTimerFires? || e.Tick?
    modifies mgr, mgr.rows, mgr.children
    ensures mgr.Valid() && mgr.View() == Step(old(mgr.View()), e)
    ensures mgr.rows == old(mgr.rows) && mgr.children == old(mgr.children)
  {
    hide *;
    StepIs(mgr.View(), e);
    match e
    case Line(p, matches) => DeliverLine(mgr, p, matches);
    case Close(p, cleanExit) => DeliverClose(mgr, p, cleanExit);
    case StartupTimerFires(r) => FireStartupTimer(mgr, r);
    case Tick(ms) => mgr.Tick(ms);
  }

  /** Probes. */
  method PerformProbe(mgr: ProcessManager, e: Event)
    requires mgr.Valid()
    requires e.PollBegin? || e.PollResult? || e.ForgetHealthCall? || e.RemoteProbe?
    modifies mgr, mgr.rows, mgr.children
    ensures mgr.Valid() && mgr.View() == Step(old(mgr.View()), e)
    ensures mgr.rows == old(mgr.rows) && mgr.children == old(mgr.children)
  {
    hide *;
    StepIs(mgr.View(), e);
    match e
    case PollBegin(n) => mgr.OnPollBegin(n);
    case PollResult(k, ok) => AnswerPoll(mgr, k, ok);
    case ForgetHealthCall(n) => mgr.ForgetHealth(n);
    case RemoteProbe(n, reachable) => mgr.RemoteProbe(n, reachable);
  }

  /** Writes from outside the manager. */
  method PerformWrite(mgr: ProcessManager, e: Event)
    requires mgr.Valid()
    requires e.BootMarksRunning? || e.WakeBegin? || e.OnceSettles? || e.WakeSettles? || e.WakeGivesUp? || e.OnceReports?
    modifies mgr, mgr.rows, mgr.children
    ensures mgr.Valid() && mgr.View() == Step(old(mgr.View()), e)
    ensures mgr.rows == old(mgr.rows) && mgr.children == old(mgr.children)
  {
    hide *;
    StepIs(mgr.View(), e);
    match e
    case BootMarksRunning(n) => mgr.BootMarksRunning(n);
    case WakeBegin(svc) => mgr.WakeBegin(svc);
    case OnceSettles(svc, reachable) => mgr.OnceSettles(svc, reachable);
    case WakeSettles(w, reachable) => SettleWake(mgr, w, Some(reachable));
    case WakeGivesUp(w) => SettleWake(mgr, w, None);
    case OnceReports(k) => SayReady(mgr, k);
  }

  method PerformCommit(mgr: ProcessManager, e: Event)
    requires mgr.Valid() && (e.RemoteCommit? || e.LocalCommit?)
    modifies mgr, mgr.rows, mgr.children
    ensures mgr.Valid() && mgr.View() == Step(old(mgr.View()), e)
    ensures mgr.rows == old(mgr.rows) && mgr.children == old(mgr.children)
  {
    hide *;
    StepIs(mgr.View(), e);
    match e
    case RemoteCommit(r, svc, env) => CommitRow(mgr, r, svc, Some(env));
    case LocalCommit(r, svc) => CommitRow(mgr, r, svc, None);
  }

  method PerformRegistration(mgr: ProcessManager, e: Event)
    requires mgr.Valid() && (e.RegisterLazyCall? || e.RegisterRemoteCall?)
    modifies mgr, mgr.rows, mgr.children
    ensures mgr.Valid() && mgr.Grown() && mgr.View() == Step(old(mgr.View()), e)
  {
    hide *;
    StepIs(mgr.View(), e);
    match e
    case RegisterLazyCall(svc) => mgr.RegisterLazy(svc);
    case RegisterRemoteCall(svc, env) => mgr.RegisterRemote(svc, env);
  }

  /** Any event: the objects do what the step machine says. */
  method Perform(mgr: ProcessManager, e: Event)
    requires mgr.Valid()
    modifies mgr, mgr.rows, mgr.children
    ensures mgr.Valid() && mgr.Grown() && mgr.View() == Step(old(mgr.View()), e)
  {
    hide ProcessManager.View, ProcessManager.Valid, Step;
    if e.StartCall? || e.PortResult? || e.ExitWaitOver? || e.BuildResult? || e.RestartTimerFires?
        || e.InstallDone? || e.RestartResume? {
      PerformStart(mgr, e);
    } else if e.StopCall? || e.ForceStopCall? || e.CancelCall? || e.RemoveCall? {
      PerformStop(mgr, e);
    } else if e.CleanupCall? || e.GraceOver? || e.IdleStopCall? {
      PerformShutdown(mgr, e);
    } else if e.StartServiceCall? || e.DrainOver? || e.RestartServiceCall? {
      PerformRequest(mgr, e);
    } else if e.Line? || e.Close? || e.StartupTimerFires? || e.Tick? {
      PerformReport(mgr, e);
    } else if e.PollBegin? || e.PollResult? || e.ForgetHealthCall? || e.RemoteProbe? {
      PerformProbe(mgr, e);
    } else if e.RegisterLazyCall? || e.RegisterRemoteCall? {
      PerformRegistration(mgr, e);
    } else if e.RemoteCommit? || e.LocalCommit? {
      PerformCommit(mgr, e);
    } else {
      PerformWrite(mgr, e);
    }
  }

  // ---------------------------------------------------------------- whole runs

  /** Any run. */
  method PerformAll(mgr: ProcessManager, events: seq<Event>)
    requires mgr.Valid()
    modifies mgr, mgr.rows, mgr.children
    ensures mgr.Valid() && mgr.Grown() && mgr.View() == Run(old(mgr.View()), events)
    decreases |events|
  {
    hide ProcessManager.View, ProcessManager.Valid, Step;
    if events != [] {
      Perform(mgr, events[0]);
      assert forall i :: 0 <= i < |mgr.rows| ==> mgr.rows[i] in old(mgr.rows) || fresh(mgr.rows[i]);
      assert forall i :: 0 <= i < |mgr.children| ==> mgr.children[i] in old(mgr.children) || fresh(mgr.children[i]);
      PerformAll(mgr, events[1..]);
    }
  }

  /** A manager that has lived through any run: `procs` is exactly the processes that have not exited, and
   *  a process that a stop acted on was neither counted as a crash nor handed to the restarter. */
  method Live(events: seq<Event>) returns (mgr: ProcessManager)
    ensures fresh(mgr) && mgr.Valid()
    ensures forall c :: c in mgr.children ==> (c in mgr.procs <==> !c.exited)
    ensures forall c :: c in mgr.children && c.stopped ==> !c.crashCounted && !c.requeued
    ensures forall c :: c in mgr.children && c.stopped && !c.exited ==> c.state.intentionalStop
  {
    mgr := new ProcessManager();
    ghost var s0 := mgr.View();
    PerformAll(mgr, events);
    ReachableInv(s0, events);
    forall c | c in mgr.children
      ensures c in mgr.procs <==> !c.exited
      ensures c.stopped ==> !c.crashCounted && !c.requeued && (!c.exited ==> c.state.intentionalStop)
    {
      StoppedObject(mgr, c);
    }
  }

  /** What the invariant says about one child object. */
  lemma StoppedObject(mgr: ProcessManager, c: ChildProcess)
    requires mgr.Valid() && Inv(mgr.View()) && c in mgr.children
    ensures c in mgr.procs <==> !c.exited
    ensures c.stopped ==> !c.crashCounted && !c.requeued && (!c.exited ==> c.state.intentionalStop)
  {
    mgr.ChildViewed(c);
    assert ChildOk(mgr.View().rows, mgr.View().children, mgr.View().procs, c.id);
    if c.id in mgr.View().procs {
      var x :| x in mgr.procs && x.id == c.id;
      assert mgr.children[x.id] == x && mgr.children[c.id] == c;
    }
  }

  /** After `cleanup`, whatever has happened before and whatever happens after: no child object is ever
   *  added, and one that lives on was among the processes taken and has been sent SIGTERM. */
  method LiveAndCleanUp(before: seq<Event>, graceMs: nat, after: seq<Event>)
    returns (mgr: ProcessManager, ghost known: seq<ChildProcess>, ghost taken: set<ChildProcess>)
    ensures fresh(mgr) && mgr.Valid() && mgr.closing
    ensures mgr.children == known && (forall c :: c in taken ==> c in known)
    ensures forall c :: c in mgr.children && c.spawned && !c.exited ==> c in taken && c.sigterm
  {
    mgr := new ProcessManager();
    ghost var s0 := mgr.View();
    mgr.SizesViewed();
    assert mgr.rows == [] && mgr.children == [];
    PerformAll(mgr, before);
    known, taken := mgr.children, mgr.procs;
    ghost var s := mgr.View();
    TakenById(mgr);
    assert forall st :: st in mgr.rows ==> fresh(st);
    assert forall c :: c in mgr.children ==> fresh(c);
    assert forall i :: 0 <= i < |mgr.rows| ==> mgr.rows[i] in mgr.rows;
    assert forall i :: 0 <= i < |mgr.children| ==> mgr.children[i] in mgr.children;
    CleanUpAndGoOn(mgr, graceMs, after);
    ShutdownIsFinal(s0, before, graceMs, after);
    OnlyKnown(mgr, s, known, taken);
  }

  /** `cleanup`, and then any run. */
  method CleanUpAndGoOn(mgr: ProcessManager, graceMs: nat, after: seq<Event>)
    requires mgr.Valid()
    modifies mgr, mgr.rows, mgr.children
    ensures mgr.Valid() && mgr.Grown()
    ensures mgr.View() == Run(Step(old(mgr.View()), CleanupCall(graceMs)), after)
  {
    hide ProcessManager.View, ProcessManager.Valid, Step, Run;
    Perform(mgr, CleanupCall(graceMs));
    assert forall i :: 0 <= i < |mgr.rows| ==> mgr.rows[i] in old(mgr.rows) || fresh(mgr.rows[i]);
    assert forall i :: 0 <= i < |mgr.children| ==> mgr.children[i] in old(mgr.children) || fresh(mgr.children[i]);
    PerformAll(mgr, after);
  }

  lemma TakenById(mgr: ProcessManager)
    requires mgr.Valid()
    ensures forall p :: p in mgr.View().procs ==> p < |mgr.children| && mgr.children[p] in mgr.procs
    ensures |mgr.View().children| == |mgr.children|
  {
    forall p | p in mgr.View().procs
      ensures p < |mgr.children| && mgr.children[p] in mgr.procs
    {
      var c :| c in mgr.procs && c.id == p;
      assert mgr.children[c.id] == c;
    }
  }

  /** What survives in the abstract state survives in the objects. */
  lemma OnlyKnown(mgr: ProcessManager, s: Supervisor, known: seq<ChildProcess>, taken: set<ChildProcess>)
    requires mgr.Valid() && known <= mgr.children && |s.children| == |known|
    requires forall p :: p in s.procs ==> p < |known| && known[p] in taken
    requires var f := mgr.View(); f.closing && |f.children| == |s.children| && OnlyTakenSurvive(f, s.procs)
    ensures mgr.closing && mgr.children == known
    ensures forall c :: c in mgr.children && c.spawned && !c.exited ==> c in taken && c.sigterm
  {
    mgr.SizesViewed();
    forall c | c in mgr.children && c.spawned && !c.exited
      ensures c in taken && c.sigterm
    {
      mgr.ChildViewed(c);
      assert Alive(mgr.View(), c.id) && mgr.children[c.id] == c;
    }
  }
}
