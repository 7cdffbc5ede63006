/** The backoff of an unbroken crash sequence, and what it bounds: how often an unattended service is
 *  spawned, how long it waits in all, and that it is then left alone. */
module RestartBudget {
  import opened Options
  import opened Supervision
  import opened SupervisionInvariants
  import opened RestartAdvertising

  /** How many processes of the name have been spawned. */
  function Spawns(children: seq<Child>, n: Name): nat {
    if children == [] then 0
    else Spawns(children[..|children| - 1], n) + if children[|children| - 1].svc.name == n then 1 else 0
  }

  lemma {:induction false} SpawnsByName(a: seq<Child>, b: seq<Child>, n: Name)
    requires |a| == |b| && forall p :: 0 <= p < |a| ==> a[p].svc.name == b[p].svc.name
    ensures Spawns(a, n) == Spawns(b, n)
  {
    if a != [] { SpawnsByName(a[..|a| - 1], b[..|b| - 1], n); }
  }

  lemma SpawnsAppend(a: seq<Child>, c: Child, n: Name)
    ensures Spawns(a + [c], n) == Spawns(a, n) + if c.svc.name == n then 1 else 0
  {
    assert (a + [c])[..|a|] == a;
  }

  /** Nobody starts or restarts the name by hand or registers it anew, and nothing else breaks its
   *  turn-taking. */
  ghost predicate Unattended(s: Supervisor, e: Event, n: Name) {
    && Calm(s, e, n)
    && (e.StartCall? ==> e.svc.name != n)
    && (e.StartServiceCall? || e.RestartServiceCall? || e.RemoveCall? ==> e.name != n)
    && (e.RegisterLazyCall? || e.RegisterRemoteCall? ==> e.svc.name != n)
  }

  ghost predicate UnattendedRun(s: Supervisor, events: seq<Event>, n: Name)
    decreases |events|
  {
    events != [] ==> Unattended(s, events[0], n) && UnattendedRun(Step(s, events[0]), events[1..], n)
  }

  predicate Queueing(s: Supervisor, n: Name) {
    n in s.queue.pending || n in s.starts.starting
  }

  /** The backoff that a step queues for the name: that of the timer it arms. */
  function QueuedBackoff(s: Supervisor, s': Supervisor, n: Name): int {
    if TimerFor(s', n, s.queue.next) then s'.queue.timers[s.queue.next].due - s.clock else 0
  }

  /** All the backoff that a run queues for the name. */
  function TotalBackoff(s: Supervisor, events: seq<Event>, n: Name): int
    decreases |events|
  {
    if events == [] then 0
    else QueuedBackoff(s, Step(s, events[0]), n) + TotalBackoff(Step(s, events[0]), events[1..], n)
  }

  // ---------------------------------------------------------------- what one step does to the budget

  /** Nothing spawned, nothing queued, the budget as before. */
  ghost predicate Steady(s: Supervisor, s': Supervisor, n: Name) {
    && Spawns(s'.children, n) == Spawns(s.children, n)
    && PreviousRestarts(s', n) == PreviousRestarts(s, n)
    && (Queueing(s', n) ==> Queueing(s, n))
    && (forall k :: TimerFor(s', n, k) ==> TimerFor(s, n, k))
    && (forall q :: Open(s', q, n) ==> Open(s, q, n))
  }

  /** The queued start has spawned one process, and nothing is queued any more. */
  ghost predicate SpawnedOne(s: Supervisor, s': Supervisor, n: Name) {
    && Spawns(s'.children, n) == Spawns(s.children, n) + 1
    && PreviousRestarts(s', n) == PreviousRestarts(s, n)
    && Queueing(s, n) && !Queueing(s', n)
    && (forall k :: TimerFor(s', n, k) ==> TimerFor(s, n, k))
    && (forall q :: Open(s', q, n) ==> Open(s, q, n))
  }

  /** The live process has crashed and one restart is queued, at the backoff of its number. */
  ghost predicate QueuedOne(s: Supervisor, s': Supervisor, n: Name) {
    && Spawns(s'.children, n) == Spawns(s.children, n)
    && PreviousRestarts(s', n) == PreviousRestarts(s, n) + 1 <= MAX_RESTARTS
    && !Queueing(s, n)
    && TimerFor(s', n, s.queue.next)
    && s'.queue.timers[s.queue.next].due == s.clock + BACKOFF_BASE_MS * Pow2(PreviousRestarts(s, n))
    && (forall q :: Open(s', q, n) ==> Open(s, q, n))
  }

  ghost predicate Moves(s: Supervisor, s': Supervisor, n: Name) {
    Steady(s, s', n) || SpawnedOne(s, s', n) || QueuedOne(s, s', n)
  }

  lemma SteadyTransitive(a: Supervisor, b: Supervisor, c: Supervisor, n: Name)
    requires Steady(a, b, n) && Steady(b, c, n)
    ensures Steady(a, c, n)
  {}

  /** Only state objects of other names, or fields other than `restarts`, were written. */
  lemma SameBudget(s: Supervisor, s': Supervisor, n: Name)
    requires s'.children == s.children && PreviousRestarts(s', n) == PreviousRestarts(s, n)
    requires Queueing(s', n) ==> Queueing(s, n)
    requires s'.queue.timers == s.queue.timers && s'.requests == s.requests
    ensures Steady(s, s', n)
  {
    forall k ensures TimerFor(s', n, k) ==> TimerFor(s, n, k) {}
    forall q ensures Open(s', q, n) ==> Open(s, q, n) {}
  }

  // ---------------------------------------------------------------- starting

  /** What a start in flight for `n` finds: the name was in hand all along, and no timer is queued. */
  ghost predicate StartOf(a: Supervisor, s: Supervisor, t: TaskId, n: Name) {
    && Inv(s) && InFlight(s, t) && Steady(a, s, n)
    && (s.starts.tasks[t].svc.name == n ==> Queueing(a, n) && n !in s.queue.pending)
  }

  lemma SettleSteady(a: Supervisor, s: Supervisor, t: TaskId, outcome: Outcome, n: Name)
    requires t < |s.starts.tasks| && Steady(a, s, n)
    ensures Steady(a, Settle(s, t, outcome), n)
  {
    SameBudget(s, Settle(s, t, outcome), n);
  }

  lemma InstallSteady(s: Supervisor, m: Name, st: ProcessState, n: Name)
    requires Inv(s) && (m == n ==> st.restarts == PreviousRestarts(s, n))
    ensures Steady(s, Install(s, m, st), n)
  {
    assert StateOk(s.rows, s.state, n);
    SameBudget(s, Install(s, m, st), n);
  }

  lemma FailSteady(a: Supervisor, s: Supervisor, t: TaskId, n: Name)
    requires Inv(s) && t < |s.starts.tasks| && Steady(a, s, n)
    ensures Steady(a, Settle(RecordCrashed(s, s.starts.tasks[t].svc), t, FailedBeforeStart), n)
  {
    var svc := s.starts.tasks[t].svc;
    var x := RecordCrashed(s, svc);
    InstallSteady(s, svc.name, x.rows[|s.rows|], n);
    SteadyTransitive(a, s, x, n);
    SettleSteady(a, x, t, FailedBeforeStart, n);
  }

  lemma SpawnMoves(a: Supervisor, s: Supervisor, t: TaskId, succeeds: bool, n: Name)
    requires StartOf(a, s, t, n)
    ensures Moves(a, Spawn(s, t, succeeds), n)
  {
    var svc := s.starts.tasks[t].svc;
    var s' := Spawn(s, t, succeeds);
    assert StateOk(s.rows, s.state, n);
    var c := Child(svc, |s.rows|, succeeds, false, false, false, false, false, false);
    SpawnsAppend(s.children, c, n);
    assert s'.children == s.children + [c] && s'.queue == s.queue && s'.requests == s.requests;
    forall k ensures TimerFor(s', n, k) ==> TimerFor(s, n, k) {}
    forall q ensures Open(s', q, n) ==> Open(s, q, n) {}
    assert PreviousRestarts(s', n) == PreviousRestarts(s, n);
  }

  lemma AfterBuildMoves(a: Supervisor, s: Supervisor, t: TaskId, world: World, n: Name)
    requires StartOf(a, s, t, n)
    ensures Moves(a, AfterBuild(s, t, world), n)
  {
    var task := s.starts.tasks[t];
    if !world.watchPathsExist { FailSteady(a, s, t, n); }
    else if Generation(s, task.svc.name) != task.generation { SettleSteady(a, s, t, Removed, n); }
    else if s.closing { SettleSteady(a, s, t, Refused, n); }
    else { SpawnMoves(a, s, t, world.spawnSucceeds, n); }
  }

  lemma ClearTimerSteady(s: Supervisor, m: Name, owner: Option<RowId>, n: Name)
    ensures Steady(s, ClearStartupTimer(s, m, owner), n)
  {
    SameBudget(s, ClearStartupTimer(s, m, owner), n);
  }

  lemma SetTaskSteady(s: Supervisor, t: TaskId, task: StartTask, n: Name)
    requires t < |s.starts.tasks|
    ensures Steady(s, SetTask(s, t, task), n)
  {
    SameBudget(s, SetTask(s, t, task), n);
  }

  lemma AfterPortMoves(a: Supervisor, s: Supervisor, t: TaskId, world: World, n: Name)
    requires StartOf(a, s, t, n)
    ensures Moves(a, AfterPort(s, t, world), n)
  {
    var task := s.starts.tasks[t];
    var s1 := ClearStartupTimer(s, task.svc.name, None);
    ClearStartupTimerKeeps(s, task.svc.name, None);
    ClearTimerSteady(s, task.svc.name, None, n);
    SteadyTransitive(a, s, s1, n);
    if !task.svc.hasPreBuild { AfterBuildMoves(a, s1, t, world, n); }
    else if s1.closing { SettleSteady(a, s1, t, Refused, n); }
    else {
      SetTaskSteady(s1, t, task.(phase := Building), n);
      SteadyTransitive(a, s1, SetTask(s1, t, task.(phase := Building)), n);
    }
  }

  lemma PortTakenSteady(a: Supervisor, s: Supervisor, t: TaskId, n: Name)
    requires Inv(s) && t < |s.starts.tasks| && Steady(a, s, n)
    ensures Steady(a, PortTaken(s, t), n)
  {
    var svc := s.starts.tasks[t].svc;
    ClearStartupTimerKeeps(s, svc.name, None);
    ClearTimerSteady(s, svc.name, None, n);
    var s1 := ClearStartupTimer(s, svc.name, None);
    SteadyTransitive(a, s, s1, n);
    FailSteady(a, s1, t, n);
  }

  /** Entering a start for `n` keeps the budget when the name was already in hand. */
  lemma EnterSteady(a: Supervisor, s: Supervisor, task: StartTask, n: Name)
    requires Steady(a, s, n) && (task.svc.name == n ==> Queueing(a, n))
    ensures Steady(a, Enter(s, task), n)
  {
    var s' := Enter(s, task);
    forall k ensures TimerFor(s', n, k) ==> TimerFor(s, n, k) {}
    forall q ensures Open(s', q, n) ==> Open(s, q, n) {}
  }

  lemma StartMoves(a: Supervisor, s: Supervisor, svc: ServiceConfig, isRestart: bool, auto: bool, world: World, n: Name)
    requires Inv(s) && Steady(a, s, n)
    requires svc.name == n ==> Queueing(a, n) && n !in s.queue.pending && n !in s.starts.starting
    ensures Moves(a, Start(s, svc, isRestart, auto, world), n)
  {
    if svc.name in s.starts.starting {
      if auto {
        var t := s.starts.starting[svc.name];
        assert StartingOk(s.starts, svc.name);
        var task := s.starts.tasks[t].(auto := true);
        SetTaskSteady(s, t, task, n);
        SteadyTransitive(a, s, SetTask(s, t, task), n);
      }
    } else {
      var t, task := |s.starts.tasks|, StartTask(svc, isRestart, Generation(s, svc.name), auto, PortCheck);
      EnterKeeps(s, task);
      EnterSteady(a, s, task, n);
      var s1 := Enter(s, task);
      if s.closing || (Registered(s, svc.name) && Entry(s, svc.name).remote.Some?) {
        SettleSteady(a, s1, t, Refused, n);
      }
      else if !svc.isApi { AfterPortMoves(a, s1, t, world, n); }
    }
  }

  /** A start in flight: the name is in hand, and nothing else is queued for it. */
  lemma InFlightStart(s: Supervisor, t: TaskId, n: Name)
    requires Inv(s) && OneHand(s, n) && InFlight(s, t)
    ensures StartOf(s, s, t, n)
  {
    assert TaskOk(s.starts, t);
  }

  lemma PortResultMoves(s: Supervisor, t: TaskId, bindable: bool, world: World, n: Name)
    requires Inv(s) && OneHand(s, n)
    ensures Moves(s, OnPortResult(s, t, bindable, world), n)
  {
    if InFlight(s, t) {
      InFlightStart(s, t, n);
      hide Inv, OneHand, Moves;
      var task := s.starts.tasks[t];
      if (task.phase.PortCheck? && (bindable || task.isRestart)) || (task.phase.PortRecheck? && bindable) {
        AfterPortMoves(s, s, t, world, n);
      } else if task.phase.PortCheck? && Registered(s, task.svc.name) && IsRunning(s, Entry(s, task.svc.name)) {
        var st := Entry(s, task.svc.name);
        SettleSteady(s, s, t, LeftAlone, n);
        SetTaskSteady(s, t, task.(phase := ExitWait(st.proc.value, s.clock + STOP_GRACE_MS)), n);
        SteadyIsMove(s, OnPortResult(s, t, bindable, world), n);
      } else if task.phase.PortCheck? || task.phase.PortRecheck? {
        PortTakenSteady(s, s, t, n);
        SteadyIsMove(s, OnPortResult(s, t, bindable, world), n);
      } else {
        Unmoved(s, n);
      }
    } else {
      Unmoved(s, n);
    }
  }

  lemma SteadyIsMove(s: Supervisor, s': Supervisor, n: Name)
    requires Steady(s, s', n)
    ensures Moves(s, s', n)
  {}

  lemma Unmoved(s: Supervisor, n: Name)
    ensures Steady(s, s, n) && Moves(s, s, n)
  {}

  lemma WaitAndBuildMove(s: Supervisor, t: TaskId, ok: bool, world: World, n: Name)
    requires Inv(s) && OneHand(s, n)
    ensures Moves(s, OnExitWaitOver(s, t), n) && Moves(s, OnBuildResult(s, t, ok, world), n)
  {
    Unmoved(s, n);
    if InFlight(s, t) {
      InFlightStart(s, t, n);
      SetTaskSteady(s, t, s.starts.tasks[t].(phase := PortRecheck), n);
      if ok { AfterBuildMoves(s, s, t, world, n); } else { FailSteady(s, s, t, n); }
    }
  }

  lemma RestartTimerMoves(s: Supervisor, timer: TimerId, world: World, n: Name)
    requires Inv(s) && OneHand(s, n)
    ensures Moves(s, OnRestartTimer(s, timer, world), n)
  {
    Unmoved(s, n);
    if RestartTimerDue(s, timer) {
      var svc := s.queue.timers[timer].svc;
      var s1 := s.(queue := s.queue.(timers := s.queue.timers - {timer}, pending := s.queue.pending - {svc.name}));
      forall m ensures PendingOk(s1.queue, m) { assert PendingOk(s.queue, m); }
      forall k ensures TimerOk(s1.queue, k) { assert TimerOk(s.queue, k); }
      forall k ensures TimerFor(s1, n, k) ==> TimerFor(s, n, k) {}
      forall q ensures Open(s1, q, n) == Open(s, q, n) {}
      assert svc.name == n ==> TimerFor(s, n, timer);
      StartMoves(s, s1, svc, true, true, world, n);
    }
  }

  lemma HandOverMoves(s: Supervisor, q: nat, world: World, n: Name)
    requires Inv(s) && NoOpen(s, n)
    ensures Moves(s, OnInstallDone(s, q, world), n) && Moves(s, OnRestartResume(s, q, world), n)
  {
    Unmoved(s, n);
    if q < |s.requests| && !s.requests[q].phase.Handed? {
      var req := s.requests[q];
      assert RequestOk(s.rows, s.requests, q);
      assert req.name != n by { assert !Open(s, q, n); }
      AdvanceRequest(s, q, Handed);
      var s1 := s.(requests := s.requests[q := req.(phase := Handed)]);
      forall k ensures TimerFor(s1, n, k) == TimerFor(s, n, k) {}
      forall x ensures Open(s1, x, n) ==> Open(s, x, n) {}
      StartMoves(s, s1, s.rows[req.row].svc, false, false, world, n);
      StartMoves(s, s1, s.rows[req.row].svc, true, false, world, n);
    }
  }

  // ---------------------------------------------------------------- stops, exits, requests

  /** Only state objects and children were written, and neither a budget nor a name. */
  lemma WritesSteady(s: Supervisor, s': Supervisor, n: Name)
    requires s'.state == s.state && |s'.rows| == |s.rows| && |s'.children| == |s.children|
    requires forall r :: 0 <= r < |s.rows| ==> s'.rows[r].restarts == s.rows[r].restarts
    requires forall p :: 0 <= p < |s.children| ==> s'.children[p].svc.name == s.children[p].svc.name
    requires s'.queue == s.queue && s'.starts == s.starts && s'.requests == s.requests
    ensures Steady(s, s', n)
  {
    SpawnsByName(s.children, s'.children, n);
    forall k ensures TimerFor(s', n, k) ==> TimerFor(s, n, k) {}
    forall q ensures Open(s', q, n) ==> Open(s, q, n) {}
  }

  lemma CancelSteady(s: Supervisor, m: Name, n: Name)
    ensures Steady(s, CancelRestart(s, m), n)
  {
    var s' := CancelRestart(s, m);
    forall k ensures TimerFor(s', n, k) ==> TimerFor(s, n, k) {}
    forall q ensures Open(s', q, n) ==> Open(s, q, n) {}
  }

  lemma SignalSteady(s: Supervisor, m: Name, kill: bool, n: Name)
    ensures Steady(s, SignalService(s, m, kill), n)
  {
    WritesSteady(s, SignalService(s, m, kill), n);
  }

  lemma StopSteady(s: Supervisor, m: Name, n: Name)
    ensures Steady(s, StopService(s, m), n)
  {
    CancelSteady(s, m, n);
    SignalSteady(CancelRestart(s, m), m, false, n);
    SteadyTransitive(s, CancelRestart(s, m), StopService(s, m), n);
  }

  lemma UnregisterSteady(s: Supervisor, tallies: Tallies, m: Name, n: Name)
    requires m != n
    ensures Steady(s, s.(state := s.state - {m}, tallies := tallies), n)
  {
    SameBudget(s, s.(state := s.state - {m}, tallies := tallies), n);
  }

  lemma RemoveSteady(s: Supervisor, m: Name, n: Name)
    requires m != n
    ensures Steady(s, RemoveService(s, m), n)
  {
    Unmoved(s, n);
    if Registered(s, m) {
      var s1 := SignalService(s, m, false);
      SignalSteady(s, m, false, n);
      var tallies := Tallies(s.tallies.removals[m := Generation(s, m) + 1], s.tallies.failures - {m});
      UnregisterSteady(s1, tallies, m, n);
      var s2 := s1.(state := s1.state - {m}, tallies := tallies);
      CancelSteady(s2, m, n);
      hide Steady;
      SteadyTransitive(s, s1, s2, n);
      SteadyTransitive(s, s2, RemoveService(s, m), n);
    }
  }

  /** A process that crashes is the one hand, and the restart it queues is the next of its budget. */
  lemma CrashQueuesOne(s: Supervisor, p: ChildId, n: Name)
    requires Inv(s) && OneHand(s, n) && Loose(s, p, n)
    ensures Moves(s, ScheduleAutoRestart(CountCrash(ChildGone(s, p), p, false), p), n)
  {
    var s1 := ChildGone(s, p);
    var s2 := CountCrash(s1, p, false);
    assert LooseIsEntry(s, n, p) && RowOk(s.rows, s.children, s.children[p].row);
    ChildGoneSteady(s, p, n);
    CountCrashSteady(s1, p, n);
    SteadyTransitive(s, s1, s2, n);
    var s3 := ScheduleAutoRestart(s2, p);
    SpawnsByName(s2.children, s3.children, n);
    forall q ensures Open(s3, q, n) ==> Open(s2, q, n) {}
    if PreviousRestarts(s, n) < MAX_RESTARTS { assert QueuedOne(s, s3, n); }
  }

  lemma ChildGoneSteady(s: Supervisor, p: ChildId, n: Name)
    requires p < |s.children|
    ensures Steady(s, ChildGone(s, p), n)
  {
    WritesSteady(s, ChildGone(s, p), n);
  }

  lemma CountCrashSteady(s: Supervisor, p: ChildId, n: Name)
    requires p < |s.children| && s.children[p].row < |s.rows|
    ensures Steady(s, CountCrash(s, p, false), n)
  {
    WritesSteady(s, CountCrash(s, p, false), n);
  }

  lemma ScheduleOtherSteady(s: Supervisor, p: ChildId, n: Name)
    requires Inv(s) && p < |s.children| && s.children[p].row < |s.rows| && s.children[p].svc.name != n
    ensures Steady(s, ScheduleAutoRestart(s, p), n)
  {
    var s' := ScheduleAutoRestart(s, p);
    assert ChildOk(s.rows, s.children, s.procs, p) && StateOk(s.rows, s.state, n);
    SpawnsByName(s.children, s'.children, n);
    forall k ensures TimerFor(s', n, k) ==> TimerFor(s, n, k) {}
    forall q ensures Open(s', q, n) ==> Open(s, q, n) {}
  }

  lemma RelabelSteady(s: Supervisor, r: RowId, st: ProcessState, n: Name)
    requires r < |s.rows| && st.restarts == s.rows[r].restarts
    ensures Steady(s, SetRow(s, r, st), n)
  {
    WritesSteady(s, SetRow(s, r, st), n);
  }

  lemma CrashOtherSteady(s: Supervisor, p: ChildId, n: Name)
    requires Inv(s) && p < |s.children| && s.children[p].row < |s.rows| && s.children[p].svc.name != n
    requires !s.children[p].exited && s.children[p].spawned && !s.rows[s.children[p].row].intentionalStop
    ensures Steady(s, ScheduleAutoRestart(CountCrash(ChildGone(s, p), p, false), p), n)
  {
    assert ChildOk(s.rows, s.children, s.procs, p);
    ChildGoneKeeps(s, p);
    var s1 := ChildGone(s, p);
    CountCrashKeeps(s1, p, false);
    var s2 := CountCrash(s1, p, false);
    ChildGoneSteady(s, p, n);
    CountCrashSteady(s1, p, n);
    ScheduleOtherSteady(s2, p, n);
    hide Steady;
    SteadyTransitive(s, s1, s2, n);
    SteadyTransitive(s, s2, ScheduleAutoRestart(s2, p), n);
  }

  lemma CloseMoves(s: Supervisor, p: ChildId, cleanExit: bool, n: Name)
    requires Inv(s) && OneHand(s, n)
    ensures Moves(s, OnClose(s, p, cleanExit), n)
  {
    Unmoved(s, n);
    if p < |s.children| && !s.children[p].exited && s.children[p].row < |s.rows| {
      var c := s.children[p];
      var s1 := ChildGone(s, p);
      var st := s1.rows[c.row];
      ChildGoneSteady(s, p, n);
      if c.spawned && !st.intentionalStop && !cleanExit {
        if c.svc.name == n { CrashQueuesOne(s, p, n); } else { CrashOtherSteady(s, p, n); }
      } else {
        hide Inv, OneHand, ChildGone, ScheduleAutoRestart, Steady;
        CountCrashSteady(s1, p, n);
        RelabelSteady(s1, c.row, st.(intentionalStop := false, status := Stopped, health := Down), n);
        RelabelSteady(s1, c.row, st.(intentionalStop := false), n);
        RelabelSteady(s1, c.row, st.(status := Stopped, health := Down), n);
        SteadyTransitive(s, s1, OnClose(s, p, cleanExit), n);
      }
    }
  }

  lemma RequestsSteady(s: Supervisor, requests: seq<Request>, n: Name)
    requires forall q :: Open(s.(requests := requests), q, n) ==> Open(s, q, n)
    ensures Steady(s, s.(requests := requests), n)
  {
    var s' := s.(requests := requests);
    forall k ensures TimerFor(s', n, k) ==> TimerFor(s, n, k) {}
  }

  lemma AfterDrainSteady(s: Supervisor, q: nat, n: Name)
    requires Inv(s) && q < |s.requests| && s.requests[q].name != n
    ensures Steady(s, AfterDrain(s, q), n)
  {
    var req := s.requests[q];
    assert RequestOk(s.rows, s.requests, q) && StateOk(s.rows, s.state, n);
    var s' := AfterDrain(s, q);
    if Registered(s, req.name) {
      var s1 := CancelRestart(s, req.name);
      CancelSteady(s, req.name, n);
      forall k ensures TimerFor(s', n, k) ==> TimerFor(s1, n, k) {}
      forall x ensures Open(s', x, n) ==> Open(s1, x, n) {}
      assert Steady(s1, s', n);
      SteadyTransitive(s, s1, s', n);
    } else {
      forall x ensures Open(s', x, n) ==> Open(s, x, n) {}
      RequestsSteady(s, s'.requests, n);
    }
  }

  lemma StartServiceSteady(s: Supervisor, m: Name, n: Name)
    requires Inv(s) && m != n
    ensures Steady(s, OnStartService(s, m), n)
  {
    Unmoved(s, n);
    if Registered(s, m) && Entry(s, m).remote.None? {
      var st := Entry(s, m);
      if IsRunning(s, st) {
        var s' := OnStartService(s, m);
        forall x ensures Open(s', x, n) ==> Open(s, x, n) {}
        RequestsSteady(s, s'.requests, n);
      } else {
        var s1 := s.(requests := s.requests + [Request(m, s.state[m], Installing)]);
        AddRequest(s, m, Installing);
        forall x ensures Open(s1, x, n) ==> Open(s, x, n) {}
        RequestsSteady(s, s1.requests, n);
        AfterDrainSteady(s1, |s.requests|, n);
        SteadyTransitive(s, s1, OnStartService(s, m), n);
      }
    }
  }

  lemma DrainOverSteady(s: Supervisor, q: nat, n: Name)
    requires Inv(s) && NoOpen(s, n)
    ensures Steady(s, OnDrainOver(s, q), n)
  {
    Unmoved(s, n);
    if q < |s.requests| && s.requests[q].phase.Draining? {
      assert s.requests[q].name != n by { assert !Open(s, q, n); }
      AfterDrainSteady(s, q, n);
      var requests := s.requests[q := s.requests[q].(phase := Handed)];
      var s1 := s.(requests := requests);
      forall x ensures Open(s1, x, n) ==> Open(s, x, n) {}
      RequestsSteady(s, requests, n);
    }
  }

  lemma RestartServiceSteady(s: Supervisor, m: Name, n: Name)
    requires Inv(s) && m != n
    ensures Steady(s, OnRestartService(s, m), n)
  {
    Unmoved(s, n);
    if Registered(s, m) {
      StopSteady(s, m, n);
      StopServiceKeeps(s, m);
      var s1, s' := StopService(s, m), OnRestartService(s, m);
      assert StateOk(s1.rows, s1.state, n) && StateOk(s1.rows, s1.state, m);
      forall k ensures TimerFor(s', n, k) ==> TimerFor(s1, n, k) {}
      forall x ensures Open(s', x, n) ==> Open(s1, x, n) {}
      assert Steady(s1, s', n);
      SteadyTransitive(s, s1, s', n);
    }
  }

  lemma CleanupSteady(s: Supervisor, graceMs: nat, k: nat, n: Name)
    ensures Steady(s, OnCleanup(s, graceMs), n) && Steady(s, OnGraceOver(s, k), n)
  {
    var s1 := CancelAll(s.(closing := true));
    forall x ensures TimerFor(s1, n, x) ==> TimerFor(s, n, x) {}
    forall q ensures Open(s1, q, n) ==> Open(s, q, n) {}
    assert Steady(s, s1, n);
    WritesSteady(s1, SignalAll(s1, graceMs), n);
    SteadyTransitive(s, s1, SignalAll(s1, graceMs), n);
    WritesSteady(s, OnGraceOver(s, k), n);
  }

  lemma LineSteady(s: Supervisor, p: ChildId, matches: bool, r: RowId, n: Name)
    ensures Steady(s, OnLine(s, p, matches), n) && Steady(s, OnStartupTimer(s, r), n)
  {
    WritesSteady(s, OnLine(s, p, matches), n);
    WritesSteady(s, OnStartupTimer(s, r), n);
  }

  lemma PollSteady(s: Supervisor, m: Name, k: nat, ok: bool, ms: nat, n: Name)
    ensures Steady(s, OnPollBegin(s, m), n) && Steady(s, OnPollResult(s, k, ok), n)
    ensures Steady(s, OnTick(s, ms), n) && Steady(s, OnForgetHealth(s, m), n)
  {
    WritesSteady(s, OnPollBegin(s, m), n);
    WritesSteady(s, OnPollResult(s, k, ok), n);
    WritesSteady(s, OnTick(s, ms), n);
    WritesSteady(s, OnForgetHealth(s, m), n);
  }

  lemma IdleStopSteady(s: Supervisor, m: Name, n: Name)
    ensures Steady(s, OnIdleStop(s, m), n)
  {
    Unmoved(s, n);
    if Registered(s, m) && Entry(s, m).remote.None? {
      StopSteady(s, m, n);
      WritesSteady(StopService(s, m), OnIdleStop(s, m), n);
      SteadyTransitive(s, StopService(s, m), OnIdleStop(s, m), n);
    }
  }

  lemma EntryWritesSteady(s: Supervisor, m: Name, reachable: bool, suspended: bool, n: Name)
    ensures Steady(s, Awake(s, m, reachable, suspended), n) && Steady(s, OnRemoteProbe(s, m, reachable), n)
    ensures Steady(s, OnBootMarksRunning(s, m), n)
  {
    WritesSteady(s, Awake(s, m, reachable, suspended), n);
    WritesSteady(s, OnRemoteProbe(s, m, reachable), n);
    WritesSteady(s, OnBootMarksRunning(s, m), n);
  }

  lemma PromiseSteady(s: Supervisor, e: Event, n: Name)
    requires Promises(e) && (e.WakeBegin? && e.svc.name == n ==> !AutoInFlight(s, n))
    ensures Steady(s, Step(s, e), n)
  {
    PromisesAre(s, e);
    hide Step, CancelRestart, Awake;
    var x := Written(s, e);
    Unmoved(s, n);
    if e.WakeBegin? { CancelSteady(s, e.svc.name, n); }
    if e.WakeSettles? && Waking(s, e.wake) {
      EntryWritesSteady(s, s.wakes[e.wake].name, e.reachable, s.wakes[e.wake].suspended, n);
    }
    if e.OnceReports? && Reporting(s, e.report) { EntryWritesSteady(s, s.reports[e.report].name, true, true, n); }
    WritesSteady(x, Step(s, e), n);
    SteadyTransitive(s, x, Step(s, e), n);
  }

  lemma CommitsSteady(s: Supervisor, r: RowId, svc: ServiceConfig, env: string, n: Name)
    ensures Steady(s, OnRemoteCommit(s, r, svc, env), n) && Steady(s, OnLocalCommit(s, r, svc), n)
  {
    WritesSteady(s, OnRemoteCommit(s, r, svc, env), n);
    WritesSteady(s, OnLocalCommit(s, r, svc), n);
  }

  lemma RegistrationsSteady(s: Supervisor, svc: ServiceConfig, env: string, n: Name)
    requires Inv(s) && svc.name != n
    ensures Steady(s, OnRegisterLazy(s, svc), n) && Steady(s, OnRegisterRemote(s, svc, env), n)
  {
    InstallSteady(s, svc.name, OnRegisterLazy(s, svc).rows[|s.rows|], n);
    InstallSteady(s, svc.name, OnRegisterRemote(s, svc, env).rows[|s.rows|], n);
  }

  // ---------------------------------------------------------------- runs

  lemma UnattendedSays(s: Supervisor, e: Event, n: Name)
    requires Unattended(s, e, n)
    ensures (e.StartCall? || e.RegisterLazyCall? || e.RegisterRemoteCall?) ==> e.svc.name != n
    ensures (e.StartServiceCall? || e.RestartServiceCall? || e.RemoveCall?) ==> e.name != n
    ensures (e.StopCall? || e.CancelCall? || e.IdleStopCall?) && e.name == n ==> !AutoInFlight(s, n)
    ensures e.WakeBegin? && e.svc.name == n ==> !AutoInFlight(s, n)
  {}

  /** Steps of an unattended service that start nothing and end nothing. */
  lemma StepSteady(s: Supervisor, e: Event, n: Name)
    requires Inv(s) && OneHand(s, n) && NoOpen(s, n) && Unattended(s, e, n)
    requires !e.StartCall? && !e.PortResult? && !e.ExitWaitOver? && !e.BuildResult? && !e.Close?
             && !e.RestartTimerFires?
          && !e.InstallDone? && !e.RestartResume?
    ensures Steady(s, Step(s, e), n)
  {
    hide *;
    UnattendedSays(s, e, n);
    StepIs(s, e);
    PromiseEvents(e);
    if e.StopCall? { StopSteady(s, e.name, n); }
    else if e.ForceStopCall? { SignalSteady(s, e.name, true, n); }
    else if e.CancelCall? { CancelSteady(s, e.name, n); }
    else if e.RemoveCall? { RemoveSteady(s, e.name, n); }
    else if e.StartServiceCall? { StartServiceSteady(s, e.name, n); }
    else if e.DrainOver? { DrainOverSteady(s, e.request, n); }
    else if e.RestartServiceCall? { RestartServiceSteady(s, e.name, n); }
    else if e.CleanupCall? { CleanupSteady(s, e.graceMs, 0, n); }
    else if e.GraceOver? { CleanupSteady(s, 0, e.cleanup, n); }
    else if e.IdleStopCall? { IdleStopSteady(s, e.name, n); }
    else if e.Tick? { PollSteady(s, "", 0, true, e.ms, n); }
    else if e.Line? { LineSteady(s, e.child, e.matches, 0, n); }
    else if e.StartupTimerFires? { LineSteady(s, 0, true, e.row, n); }
    else if e.PollBegin? { PollSteady(s, e.name, 0, true, 0, n); }
    else if e.PollResult? { PollSteady(s, "", e.poll, e.ok, 0, n); }
    else if e.ForgetHealthCall? { PollSteady(s, e.name, 0, true, 0, n); }
    else if e.BootMarksRunning? { EntryWritesSteady(s, e.name, true, true, n); }
    else if e.RegisterLazyCall? { RegistrationsSteady(s, e.svc, "", n); }
    else if e.RegisterRemoteCall? { RegistrationsSteady(s, e.svc, e.env, n); }
    else if e.RemoteCommit? { CommitsSteady(s, e.row, e.svc, e.env, n); }
    else if e.LocalCommit? { CommitsSteady(s, e.row, e.svc, "", n); }
    else if e.RemoteProbe? { EntryWritesSteady(s, e.name, e.reachable, true, n); }
    else { PromiseSteady(s, e, n); }
  }

  /** One step of an unattended service. */
  lemma StepMoves(s: Supervisor, e: Event, n: Name)
    requires Inv(s) && OneHand(s, n) && NoOpen(s, n) && Unattended(s, e, n)
    ensures Moves(s, Step(s, e), n)
  {
    Unmoved(s, n);
    hide *;
    UnattendedSays(s, e, n);
    StepIs(s, e);
    match e
    case StartCall(svc, isRestart, world) => StartMoves(s, s, svc, isRestart, false, world, n);
    case PortResult(t, bindable, world) => PortResultMoves(s, t, bindable, world, n);
    case ExitWaitOver(t) => WaitAndBuildMove(s, t, true, World(true, true), n);
    case BuildResult(t, ok, world) => WaitAndBuildMove(s, t, ok, world, n);
    case Close(p, cleanExit) => CloseMoves(s, p, cleanExit, n);
    case RestartTimerFires(timer, world) => RestartTimerMoves(s, timer, world, n);
    case InstallDone(q, world) => HandOverMoves(s, q, world, n);
    case RestartResume(q, world) => HandOverMoves(s, q, world, n);
    case _ => StepSteady(s, e, n); SteadyIsMove(s, Step(s, e), n);
  }

  /** `restarts` never exceeds the budget, on any state object ever made. */
  lemma RestartsNeverExceedBudget(s0: Supervisor, events: seq<Event>, r: RowId)
    requires Initial(s0) && r < |Run(s0, events).rows|
    ensures Run(s0, events).rows[r].restarts <= MAX_RESTARTS
  {
    ReachableInv(s0, events);
    assert RowOk(Run(s0, events).rows, Run(s0, events).children, r);
  }

  /** If the exit of `p` arms a timer, it is the next restart of the budget of `p`'s state object,
   *  restart number k, and waits BASE * 2^(k-1). */
  ghost predicate DoublesItsBackoff(s: Supervisor, s': Supervisor, p: ChildId)
    requires p < |s.children| && s.children[p].row < |s.rows| && |s'.rows| == |s.rows|
  {
    var r := s.children[p].row;
    s'.queue != s.queue ==>
      && s'.rows[r].restarts == s.rows[r].restarts + 1 <= MAX_RESTARTS
      && s.queue.next in s'.queue.timers
      && s'.queue.timers[s.queue.next].svc == s.children[p].svc
      && s'.queue.timers[s.queue.next].due == s.clock + BACKOFF_BASE_MS * Pow2(s'.rows[r].restarts - 1)
      && s'.rows[r].restartPendingUntil == Some(s'.queue.timers[s.queue.next].due)
  }

  /** The exit that uses restart number k of a state object waits BASE * 2^(k-1), in any run at all. */
  lemma BackoffDoubles(s0: Supervisor, events: seq<Event>, p: ChildId, cleanExit: bool)
    requires Initial(s0) && p < |Run(s0, events).children|
    ensures var s := Run(s0, events);
            var s' := Step(s, Close(p, cleanExit));
            s.children[p].row < |s.rows| && |s'.rows| == |s.rows| && DoublesItsBackoff(s, s', p)
  {
    var s := Run(s0, events);
    ReachableInv(s0, events);
    assert ChildOk(s.rows, s.children, s.procs, p);
    hide Run, Inv, Step, DoublesItsBackoff;
    ClosingSchedules(s, p, cleanExit);
  }

  lemma ClosingSchedules(s: Supervisor, p: ChildId, cleanExit: bool)
    requires p < |s.children| && s.children[p].row < |s.rows|
    ensures var s' := Step(s, Close(p, cleanExit)); |s'.rows| == |s.rows| && DoublesItsBackoff(s, s', p)
  {
    var s' := Step(s, Close(p, cleanExit));
    assert s' == OnClose(s, p, cleanExit);
    hide Step;
    if !s.children[p].exited {
      var s1 := ChildGone(s, p);
      var s2 := CountCrash(s1, p, s1.rows[s.children[p].row].intentionalStop);
      assert s2.queue == s.queue && s2.rows[s.children[p].row].restarts == s.rows[s.children[p].row].restarts;
    }
  }

  /** With `base` processes before its first start, the name has had at most one process per restart
   *  and one more, and that one is still to come while something is queued. */
  ghost predicate InBudget(base: nat, s: Supervisor, n: Name) {
    && PreviousRestarts(s, n) <= MAX_RESTARTS
    && Spawns(s.children, n) <= base + PreviousRestarts(s, n) + (if Queueing(s, n) then 0 else 1)
  }

  lemma MovesInBudget(base: nat, s: Supervisor, s': Supervisor, n: Name)
    requires Inv(s) && InBudget(base, s, n) && Moves(s, s', n) && NoOpen(s, n)
    ensures InBudget(base, s', n) && NoOpen(s', n)
    ensures QueuedBackoff(s, s', n) == BACKOFF_BASE_MS * (Pow2(PreviousRestarts(s', n)) - Pow2(PreviousRestarts(s, n)))
  {
    assert TimerOk(s.queue, s.queue.next);
    assert !TimerFor(s, n, s.queue.next);
    forall q ensures !Open(s', q, n) { assert !Open(s, q, n); }
  }

  lemma {:induction false} UnattendedRunInBudget(base: nat, s: Supervisor, events: seq<Event>, n: Name)
    requires Inv(s) && OneHand(s, n) && NoOpen(s, n) && InBudget(base, s, n) && UnattendedRun(s, events, n)
    ensures var f := Run(s, events);
            && InBudget(base, f, n) && OneHand(f, n)
            && TotalBackoff(s, events, n) 
               == BACKOFF_BASE_MS * (Pow2(PreviousRestarts(f, n)) - Pow2(PreviousRestarts(s, n)))
    decreases |events|
  {
    if events != [] {
      var s' := Step(s, events[0]);
      hide Inv, OneHand, Step, InBudget, Calm;
      StepKeeps(s, events[0]);
      StepKeepsOneHand(s, events[0], n);
      StepMoves(s, events[0], n);
      MovesInBudget(base, s, s', n);
      UnattendedRunInBudget(base, s', events[1..], n);
    }
  }

  /** The one start by hand. */
  lemma FirstStart(s: Supervisor, svc: ServiceConfig, isRestart: bool, world: World)
    requires Inv(s) && HandsOff(s, svc.name) && PreviousRestarts(s, svc.name) == 0
    ensures var n := svc.name;
            var s' := Start(s, svc, isRestart, false, world);
            && InBudget(Spawns(s.children, n), s', n) && PreviousRestarts(s', n) == 0 && NoOpen(s', n)
  {
    var n, t, task := svc.name, |s.starts.tasks|, StartTask(svc, isRestart, Generation(s, svc.name), false, PortCheck);
    EnterKeeps(s, task);
    var s1 := Enter(s, task);
    forall q ensures !Open(s1, q, n) { assert Open(s1, q, n) ==> Open(s, q, n); }
    Unmoved(s1, n);
    var s' := Start(s, svc, isRestart, false, world);
    if s.closing || (Registered(s, n) && Entry(s, n).remote.Some?) { SettleSteady(s1, s1, t, Refused, n); }
    else if !svc.isApi { AfterPortMoves(s1, s1, t, world, n); }
    MovesInBudget(Spawns(s.children, n), s1, s', n);
  }

  lemma Pow2Monotone(a: nat, b: nat)
    requires a <= b
    ensures 1 <= Pow2(a) <= Pow2(b)
  {
    if a < b { Pow2Monotone(a, b - 1); } else if a > 0 { Pow2Monotone(a - 1, b - 1); }
  }

  /** A service started by hand once and then left alone is spawned at most MAX_RESTARTS + 1 times,
   *  waits at most BASE * (2^MAX_RESTARTS - 1) ms in all, and when it has used every restart
   *  nothing is queued for it any more. */
  lemma UnattendedIsBounded(s0: Supervisor, before: seq<Event>, svc: ServiceConfig, isRestart: bool, world: World,
                            after: seq<Event>)
    requires Initial(s0)
    requires HandsOff(Run(s0, before), svc.name) && PreviousRestarts(Run(s0, before), svc.name) == 0
    requires UnattendedRun(Step(Run(s0, before), StartCall(svc, isRestart, world)), after, svc.name)
    ensures var s, n := Run(s0, before), svc.name;
            var started := Step(s, StartCall(svc, isRestart, world));
            var f := Run(started, after);
            && PreviousRestarts(f, n) <= MAX_RESTARTS
            && Spawns(f.children, n) <= Spawns(s.children, n) + PreviousRestarts(f, n) + 1
            && TotalBackoff(started, after, n) == BACKOFF_BASE_MS * (Pow2(PreviousRestarts(f, n)) - 1)
                                               <= BACKOFF_BASE_MS * (Pow2(MAX_RESTARTS) - 1)
            && (Spawns(f.children, n) == Spawns(s.children, n) + MAX_RESTARTS + 1 ==>
                  NothingQueued(f, n) && n !in f.starts.starting)
  {
    var s, n := Run(s0, before), svc.name;
    var e := StartCall(svc, isRestart, world);
    hide Step, Start, Run, Inv, Initial, UnattendedRun;
    ReachableInv(s0, before);
    FreeHand(s, n);
    StepKeeps(s, e);
    StepKeepsOneHand(s, e, n);
    FirstStart(s, svc, isRestart, world);
    var started := Step(s, e);
    StepIs(s, e);
    UnattendedRunInBudget(Spawns(s.children, n), started, after, n);
    Pow2Monotone(PreviousRestarts(Run(started, after), n), MAX_RESTARTS);
    assert Pow2(0) == 1;
  }
}
