/** What the calls from outside achieve: a start, a restart, a cancel, a removal, a shutdown. */
module CallOutcomes {
  import opened Options
  import opened Supervision
  import opened SupervisionInvariants
  import opened SupervisionHistory
  import opened StartOutcomes
  import opened ExitOutcomes

  // ---------------------------------------------------------------- queued restarts

  /** The restart that is filed under the name will not happen, and its row no longer says that it will; the
   *  timers of other names are as they were. */
  ghost predicate Cancelled(s: Supervisor, s': Supervisor, n: Name) {
    && n !in s'.queue.pending
    && (forall m :: m != n ==> (m in s'.queue.pending <==> m in s.queue.pending))
    && (forall m :: m in s'.queue.pending ==> s'.queue.pending[m] == s.queue.pending[m])
    && (forall k :: k in s'.queue.timers <==>
          k in s.queue.timers && !(n in s.queue.pending && s.queue.pending[n] == k))
    && (forall k :: k in s'.queue.timers ==> s'.queue.timers[k] == s.queue.timers[k])
    && (Registered(s', n) ==> Entry(s', n).restartPendingUntil.None?)
  }

  lemma CancelCancels(s: Supervisor, n: Name)
    ensures Cancelled(s, CancelRestart(s, n), n)
    ensures CancelRestart(s, n) == s.(rows := CancelRestart(s, n).rows, queue := CancelRestart(s, n).queue)
    ensures |CancelRestart(s, n).rows| == |s.rows|
    ensures forall r :: 0 <= r < |s.rows| ==>
              var st := CancelRestart(s, n).rows[r];
              st == s.rows[r].(restartPendingUntil := st.restartPendingUntil)
              && (!(n in s.state && s.state[n] == r) ==> st == s.rows[r])
  {}

  lemma SignalLeavesQueue(s: Supervisor, n: Name, kill: bool)
    ensures var s' := SignalService(s, n, kill);
            && s' == s.(rows := s'.rows, children := s'.children) && |s'.rows| == |s.rows|
            && forall r :: 0 <= r < |s.rows| ==>
                 s'.rows[r] == s.rows[r].(intentionalStop := s'.rows[r].intentionalStop)
                 && (s'.rows[r].intentionalStop
                     <==> s.rows[r].intentionalStop || (Stoppable(s, n) && s.state[n] == r))
  {}

  /** Every call that stops a service by hand cancels its queued restart, and a force-stop does not. */
  lemma StopCancels(s: Supervisor, n: Name)
    ensures Cancelled(s, Step(s, StopCall(n)), n) && Cancelled(s, Step(s, CancelCall(n)), n)
    ensures Step(s, ForceStopCall(n)).queue == s.queue
  {
    CancelCancels(s, n);
    SignalLeavesQueue(CancelRestart(s, n), n, false);
    SignalLeavesQueue(s, n, true);
    hide Step, CancelRestart, SignalService;
    StepIs(s, StopCall(n));
    StepIs(s, CancelCall(n));
    StepIs(s, ForceStopCall(n));
  }

  /** After a removal the name is free: nobody is registered under it, its filed restart is cancelled, its
   *  failed probes are forgotten, and every start that was called before it is overtaken.  No other name is
   *  touched. */
  lemma RemovalFreesName(s: Supervisor, n: Name)
    requires Registered(s, n)
    ensures var s' := Step(s, RemoveCall(n));
            && n !in s'.state && (forall m :: m != n ==> (m in s'.state <==> m in s.state))
            && (forall m :: m in s'.state ==> s'.state[m] == s.state[m])
            && Cancelled(s, s', n) && Generation(s', n) == Generation(s, n) + 1 && FailureCount(s', n) == 0
            && (forall m :: m != n ==>
                  Generation(s', m) == Generation(s, m) && FailureCount(s', m) == FailureCount(s, m))
            && (Stoppable(s, n) ==> s.state[n] < |s'.rows| && s'.rows[s.state[n]].intentionalStop)
  {
    hide Stoppable;
    var s1 := SignalService(s, n, false);
    SignalLeavesQueue(s, n, false);
    var s2 := s1.(state := s.state - {n},
                  tallies := Tallies(s.tallies.removals[n := Generation(s, n) + 1], s.tallies.failures - {n}));
    CancelCancels(s2, n);
    CancelledSince(s, s2, CancelRestart(s2, n), n);
    assert RemoveService(s, n) == CancelRestart(s2, n);
    hide Step, CancelRestart, SignalService, RemoveService, Cancelled;
    StepIs(s, RemoveCall(n));
  }

  lemma CancelledSince(s: Supervisor, s2: Supervisor, s': Supervisor, n: Name)
    requires Cancelled(s2, s', n) && s2.queue == s.queue
    ensures Cancelled(s, s', n)
  {}

  /** The shutdown cancels every restart that is filed under a name. */
  lemma ShutdownCancels(s: Supervisor, graceMs: nat)
    ensures var s' := Step(s, CleanupCall(graceMs));
            && s'.closing && s'.queue.pending == map[]
            && (forall k :: k in s'.queue.timers <==>
                  k in s.queue.timers && !exists n :: n in s.queue.pending && s.queue.pending[n] == k)
            && (forall n :: n in s.queue.pending && Registered(s', n) ==> Entry(s', n).restartPendingUntil.None?)
  {
    var s0 := s.(closing := true);
    var s1 := CancelAll(s0);
    assert forall n :: n in s.queue.pending && Registered(s1, n) ==> HasQueuedRestart(s0, s1.state[n]);
    SignalAllLeavesQueue(s1, graceMs);
    hide Step, SignalAll;
    StepIs(s, CleanupCall(graceMs));
  }

  /** And says of every registered row whose process it takes that its exit is intended. */
  lemma ShutdownMarks(s: Supervisor, graceMs: nat, n: Name)
    requires Registered(s, n) && Entry(s, n).proc.Some? && Entry(s, n).proc.value in s.procs
    ensures var s' := Step(s, CleanupCall(graceMs)); Registered(s', n) && Entry(s', n).intentionalStop
  {
    StepIs(s, CleanupCall(graceMs));
    var s1 := CancelAll(s.(closing := true));
    assert s1.state == s.state && s1.procs == s.procs && s1.rows[s.state[n]].proc == Entry(s, n).proc;
    assert FoundByCleanup(s1, s.state[n]);
    hide Step, CancelAll;
  }

  lemma SignalAllLeavesQueue(s: Supervisor, graceMs: nat)
    ensures var s' := SignalAll(s, graceMs);
            && s'.queue == s.queue && s'.closing == s.closing && s'.state == s.state && |s'.rows| == |s.rows|
            && forall r :: 0 <= r < |s.rows| ==> s'.rows[r].restartPendingUntil == s.rows[r].restartPendingUntil
  {}

  // ---------------------------------------------------------------- explicit starts and restarts

  /** Nobody else starts the service, it is not served from an environment, and the manager is not closing. */
  predicate FreeToStart(s: Supervisor, n: Name) {
    Registered(s, n) && n !in s.starts.starting && !MayNotStart(s, n)
  }

  /** The row has its whole budget again, and its queued restart is cancelled. */
  ghost predicate Renewed(s: Supervisor, s': Supervisor, n: Name)
    requires Registered(s, n)
  {
    && Cancelled(s, s', n) && s'.state == s.state && |s'.rows| == |s.rows|
    && Entry(s', n) == Entry(s, n).(restarts := 0, restartPendingUntil := None,
                                    intentionalStop := Entry(s', n).intentionalStop)
  }

  /** What an explicit start does at once: nothing for a service that nobody knows, that is served from an
   *  environment, or that runs and is not being stopped; one that is being stopped is waited for, and any other
   *  is on its way with its whole budget. */
  ghost predicate AskedFor(s: Supervisor, s': Supervisor, n: Name) {
    var q := |s.requests|;
    if !Registered(s, n) || Entry(s, n).remote.Some? then s' == s
    else if !IsRunning(s, Entry(s, n)) then
      && Renewed(s, s', n) && s'.requests == s.requests + [Request(n, s.state[n], Installing)]
      && s' == s.(requests := s'.requests, rows := s'.rows, queue := s'.queue)
    else if !Entry(s, n).intentionalStop then s' == s
    else
      var wait := Draining(Entry(s, n).proc.value, s.clock + STOP_GRACE_MS);
      s' == s.(requests := s.requests + [Request(n, s.state[n], wait)])
  }

  lemma DrainRenews(s: Supervisor, q: nat)
    requires q < |s.requests| && Registered(s, s.requests[q].name)
    requires s.requests[q].row == s.state[s.requests[q].name]
    ensures var s', n := AfterDrain(s, q), s.requests[q].name;
            && Renewed(s, s', n) && s'.requests == s.requests[q := s.requests[q].(phase := Installing)]
            && s' == s.(requests := s'.requests, rows := s'.rows, queue := s'.queue)
  {
    CancelCancels(s, s.requests[q].name);
    hide CancelRestart;
  }

  lemma StartServiceAsks(s: Supervisor, n: Name)
    ensures AskedFor(s, OnStartService(s, n), n)
  {
    if Registered(s, n) {
      var s1 := s.(requests := s.requests + [Request(n, s.state[n], Installing)]);
      DrainRenews(s1, |s.requests|);
      assert s1.requests[|s.requests| := s1.requests[|s.requests|].(phase := Installing)] == s1.requests;
    }
    hide AfterDrain, Cancelled;
  }

  lemma HandingOver(s: Supervisor, q: nat, isRestart: bool, first: bool)
    requires Inv(s) && q < |s.requests| && FreeToStart(s, s.requests[q].name) && (first || isRestart)
    requires s.requests[q].row == s.state[s.requests[q].name]
    ensures var s', t := HandOver(s, q, isRestart, FINE), |s.starts.tasks|;
            t < |s'.starts.tasks|
            && ServiceUp(s, Run(s', CarryOn(s', t, AllWell(first))), Entry(s, s.requests[q].name).svc)
  {
    var req, t := s.requests[q], |s.starts.tasks|;
    var s1 := s.(requests := s.requests[q := req.(phase := Handed)]);
    AdvanceRequest(s, q, Handed);
    NameOfRow(s, req.name);
    assert HandOver(s, q, isRestart, FINE) == Start(s1, Entry(s, req.name).svc, isRestart, false, FINE);
    hide HandOver, Inv, Start, Run, CarryOn, ServiceUp;
    CallComesUp(s1, Entry(s, req.name).svc, isRestart, false, first);
    var s' := HandOver(s, q, isRestart, FINE);
    UpSince(s, s1, Run(s', CarryOn(s', t, AllWell(first))), Entry(s, req.name).svc);
  }

  lemma NameOfRow(s: Supervisor, n: Name)
    requires Inv(s) && Registered(s, n)
    ensures Entry(s, n).svc.name == n
  {
    assert StateOk(s.rows, s.state, n);
  }

  /** A service that does not run and is asked for comes up when all is well, with its whole budget: one new
   *  process of the configuration that is registered. */
  lemma AskedServiceComesUp(s0: Supervisor, before: seq<Event>, n: Name)
    requires Initial(s0)
    requires FreeToStart(Run(s0, before), n) && !IsRunning(Run(s0, before), Entry(Run(s0, before), n))
    ensures var s := Run(s0, before);
            var s1, t := Step(s, StartServiceCall(n)), |s.starts.tasks|;
            var s2 := Step(s1, InstallDone(|s.requests|, FINE));
            && Renewed(s, s1, n) && t < |s2.starts.tasks|
            && ServiceUp(s1, Run(s2, CarryOn(s2, t, ALL_WELL)), Entry(s, n).svc)
  {
    var s := Run(s0, before);
    ReachableInv(s0, before);
    hide Run, Initial, Inv, Step;
    StepKeeps(s, StartServiceCall(n));
    StepIs(s, StartServiceCall(n));
    StartServiceAsks(s, n);
    StartInstalls(Step(s, StartServiceCall(n)), |s.requests|);
    hide OnStartService, CarryOn, ServiceUp, Cancelled;
  }

  lemma StartInstalls(s: Supervisor, q: nat)
    requires Inv(s) && q < |s.requests| && FreeToStart(s, s.requests[q].name) && s.requests[q].phase.Installing?
    requires s.requests[q].row == s.state[s.requests[q].name]
    ensures var s', t := Step(s, InstallDone(q, FINE)), |s.starts.tasks|;
            t < |s'.starts.tasks|
            && ServiceUp(s, Run(s', CarryOn(s', t, ALL_WELL)), Entry(s, s.requests[q].name).svc)
  {
    HandingOver(s, q, false, true);
    hide Step, HandOver, Run, CarryOn, ServiceUp, Inv;
    StepIs(s, InstallDone(q, FINE));
  }

  /** How long a restart lets the old process go. */
  function SettleMs(s: Supervisor, n: Name): nat
    requires Registered(s, n)
  {
    if IsRunning(s, Entry(s, n)) then 1500 else 100
  }

  lemma RestartServiceAsks(s: Supervisor, n: Name)
    requires Registered(s, n)
    ensures var s' := OnRestartService(s, n);
            && Renewed(s, s', n) && s'.closing == s.closing && s'.clock == s.clock && s'.starts == s.starts
            && s'.requests == s.requests + [Request(n, s.state[n], Settling(s.clock + SettleMs(s, n)))]
            && Entry(s', n).remote == Entry(s, n).remote
            && (Stoppable(s, n) ==> Entry(s', n).intentionalStop)
  {
    var s1 := CancelRestart(s, n);
    CancelCancels(s, n);
    SignalLeavesQueue(s1, n, false);
    assert Stoppable(s1, n) == Stoppable(s, n);
    assert IsRunning(StopService(s, n), Entry(StopService(s, n), n)) == IsRunning(s, Entry(s, n)) by {
      SignalKeepsExits(s1, n);
    }
    hide CancelRestart, SignalService, Stoppable, IsRunning;
  }

  lemma SignalKeepsExits(s: Supervisor, n: Name)
    ensures var s' := SignalService(s, n, false);
            |s'.children| == |s.children|
            && forall p :: 0 <= p < |s.children| ==> s'.children[p].exited == s.children[p].exited
  {}

  lemma ResumesAfter(s: Supervisor, q: nat, ms: nat, first: bool)
    requires Inv(s) && q < |s.requests| && s.requests[q].phase.Settling? && s.requests[q].phase.due <= s.clock + ms
    requires FreeToStart(s, s.requests[q].name) && s.requests[q].row == s.state[s.requests[q].name]
    ensures var s1 := Step(s, Tick(ms));
            var s', t := Step(s1, RestartResume(q, FINE)), |s.starts.tasks|;
            t < |s'.starts.tasks|
            && ServiceUp(s, Run(s', CarryOn(s', t, AllWell(first))), Entry(s, s.requests[q].name).svc)
  {
    var s1 := OnTick(s, ms);
    StepKeeps(s, Tick(ms));
    StepIs(s, Tick(ms));
    StepIs(s1, RestartResume(q, FINE));
    hide Step, HandOver, Run, CarryOn, ServiceUp, Inv;
    HandingOver(s1, q, true, first);
    var s' := Step(s1, RestartResume(q, FINE));
    UpSince(s, s1, Run(s', CarryOn(s', |s.starts.tasks|, AllWell(first))), Entry(s, s.requests[q].name).svc);
  }

  /** A restart stops the service if it runs, and once the old process has had its time brings it up again when
   *  all is well, with its whole budget, whether or not it ran and whether or not its port is free by then. */
  lemma RestartedServiceComesUp(s0: Supervisor, before: seq<Event>, n: Name, first: bool)
    requires Initial(s0) && FreeToStart(Run(s0, before), n)
    ensures var s := Run(s0, before);
            var s1, t := Step(s, RestartServiceCall(n)), |s.starts.tasks|;
            var s3 := Step(Step(s1, Tick(SettleMs(s, n))), RestartResume(|s.requests|, FINE));
            && Renewed(s, s1, n) && (Stoppable(s, n) ==> Entry(s1, n).intentionalStop)
            && t < |s3.starts.tasks|
            && ServiceUp(s1, Run(s3, CarryOn(s3, t, AllWell(first))), Entry(s, n).svc)
  {
    var s := Run(s0, before);
    ReachableInv(s0, before);
    hide Run, Initial, Inv, Step;
    StepKeeps(s, RestartServiceCall(n));
    StepIs(s, RestartServiceCall(n));
    RestartServiceAsks(s, n);
    hide OnRestartService, Cancelled, Stoppable, SettleMs;
    ResumesAfter(Step(s, RestartServiceCall(n)), |s.requests|, SettleMs(s, n), first);
    hide CarryOn, ServiceUp;
  }

  // ---------------------------------------------------------------- a start asked for while it is being stopped

  lemma ExitLeavesEntry(s: Supervisor, n: Name, cleanExit: bool)
    requires Inv(s) && Registered(s, n) && IsRunning(s, Entry(s, n))
    ensures var p := Entry(s, n).proc.value;
            var g := OnClose(s, p, cleanExit);
            && p < |g.children| && g.children[p].exited && g.state == s.state && g.starts == s.starts
            && g.requests == s.requests && g.closing == s.closing && g.clock == s.clock && |g.rows| == |s.rows|
            && Entry(g, n).svc == Entry(s, n).svc && Entry(g, n).remote == Entry(s, n).remote
  {
    var p := Entry(s, n).proc.value;
    assert RowOk(s.rows, s.children, s.state[n]);
    ExitReads(s, p, cleanExit);
    hide OnClose, Inv, RestartQueued, NothingMoreQueued;
  }

  lemma DrainedStarts(s: Supervisor, q: nat)
    requires Inv(s) && q < |s.requests| && s.requests[q].phase.Draining? && FreeToStart(s, s.requests[q].name)
    requires s.requests[q].row == s.state[s.requests[q].name]
    requires s.requests[q].phase.child < |s.children| && s.children[s.requests[q].phase.child].exited
    ensures var s1, n := Step(s, DrainOver(q)), s.requests[q].name;
            var s2, t := Step(s1, InstallDone(q, FINE)), |s.starts.tasks|;
            && Renewed(s, s1, n) && t < |s2.starts.tasks|
            && ServiceUp(s1, Run(s2, CarryOn(s2, t, ALL_WELL)), Entry(s, n).svc)
  {
    DrainRenews(s, q);
    StepKeeps(s, DrainOver(q));
    StepIs(s, DrainOver(q));
    hide Step, AfterDrain, Run, CarryOn, ServiceUp, Inv, Cancelled;
    StartKeepsRemote(s, q);
    StartInstalls(Step(s, DrainOver(q)), q);
  }

  lemma StartKeepsRemote(s: Supervisor, q: nat)
    requires q < |s.requests| && Registered(s, s.requests[q].name)
    ensures var s', n := AfterDrain(s, q), s.requests[q].name;
            Registered(s', n) && Entry(s', n).remote == Entry(s, n).remote
  {}

  /** The request waits for a process that has gone. */
  predicate Drained(g: Supervisor, q: nat, n: Name) {
    && q < |g.requests| && g.requests[q].phase.Draining? && g.requests[q].name == n
    && FreeToStart(g, n) && g.requests[q].row == g.state[n]
    && g.requests[q].phase.child < |g.children| && g.children[g.requests[q].phase.child].exited
  }

  lemma AskedWaits(s: Supervisor, n: Name, cleanExit: bool)
    requires Inv(s) && FreeToStart(s, n) && IsRunning(s, Entry(s, n)) && Entry(s, n).intentionalStop
    ensures var g := Step(Step(s, StartServiceCall(n)), Close(Entry(s, n).proc.value, cleanExit));
            && Inv(g) && Drained(g, |s.requests|, n) && Entry(g, n).svc == Entry(s, n).svc
            && |g.starts.tasks| == |s.starts.tasks|
  {
    var a, e := Step(s, StartServiceCall(n)), Close(Entry(s, n).proc.value, cleanExit);
    hide Step, Inv;
    StepKeeps(s, StartServiceCall(n));
    StepIs(s, StartServiceCall(n));
    StartServiceAsks(s, n);
    StepKeeps(a, e);
    StepIs(a, e);
    hide OnStartService, OnClose, Renewed;
    ExitLeavesEntry(a, n, cleanExit);
  }

  /** A start asked for while the service is being stopped waits for the old process and then brings it up, with
   *  its whole budget, however that process ends. */
  lemma AskedWhileStoppingComesUp(s0: Supervisor, before: seq<Event>, n: Name, cleanExit: bool)
    requires Initial(s0)
    requires var s := Run(s0, before);
             FreeToStart(s, n) && IsRunning(s, Entry(s, n)) && Entry(s, n).intentionalStop
    ensures var s := Run(s0, before);
            var g := Step(Step(s, StartServiceCall(n)), Close(Entry(s, n).proc.value, cleanExit));
            var s1, t := Step(g, DrainOver(|s.requests|)), |s.starts.tasks|;
            var s2 := Step(s1, InstallDone(|s.requests|, FINE));
            && Registered(g, n) && Renewed(g, s1, n) && t < |s2.starts.tasks|
            && ServiceUp(s1, Run(s2, CarryOn(s2, t, ALL_WELL)), Entry(s, n).svc)
  {
    var s := Run(s0, before);
    ReachableInv(s0, before);
    hide Run, Initial, Inv, Step, IsRunning, MayNotStart, Renewed, ServiceUp, CarryOn;
    AskedWaits(s, n, cleanExit);
    DrainedStarts(Step(Step(s, StartServiceCall(n)), Close(Entry(s, n).proc.value, cleanExit)), |s.requests|);
  }

  // ---------------------------------------------------------------- what is begun by itself

  lemma StartLeaves(s: Supervisor, svc: ServiceConfig, isRestart: bool, auto: bool, world: World)
    ensures var s' := Start(s, svc, isRestart, auto, world); s'.queue == s.queue && s'.requests == s.requests
  {}

  lemma BuildKeepsTask(s: Supervisor, t: TaskId, world: World)
    requires t < |s.starts.tasks|
    ensures var s' := AfterBuild(s, t, world);
            |s'.starts.tasks| == |s.starts.tasks|
            && s'.starts.tasks[t] == s.starts.tasks[t].(phase := s'.starts.tasks[t].phase)
  {}

  /** The start that is begun is of this service, from the removals there have been, and for whom it was asked. */
  lemma BeginsTask(s: Supervisor, svc: ServiceConfig, isRestart: bool, auto: bool, world: World)
    requires svc.name !in s.starts.starting
    ensures var s', t := Start(s, svc, isRestart, auto, world), |s.starts.tasks|;
            && |s'.starts.tasks| == t + 1
            && s'.starts.tasks[t]
               == StartTask(svc, isRestart, Generation(s, svc.name), auto, s'.starts.tasks[t].phase)
  {
    var b := Enter(s, StartTask(svc, isRestart, Generation(s, svc.name), auto, PortCheck));
    BuildKeepsTask(ClearStartupTimer(b, svc.name, None), |s.starts.tasks|, world);
    hide AfterBuild;
  }

  /** A restart whose time has come is no longer queued, and begins a start of its service, or joins the one in
   *  flight; in either case it goes on advertising itself until that start is over.  Before its time it does
   *  nothing. */
  lemma DueTimerStarts(s: Supervisor, k: TimerId, world: World)
    requires Inv(s) && k in s.queue.timers
    ensures var s', svc := Step(s, RestartTimerFires(k, world)), s.queue.timers[k].svc;
            var t := if svc.name in s.starts.starting then s.starts.starting[svc.name] else |s.starts.tasks|;
            if s.queue.timers[k].due > s.clock then s' == s
            else
              && k !in s'.queue.timers && svc.name !in s'.queue.pending
              && t < |s'.starts.tasks| && s'.starts.tasks[t].auto && s'.starts.tasks[t].svc.name == svc.name
              && (svc.name !in s.starts.starting ==> s'.starts.tasks[t].svc == svc && s'.starts.tasks[t].isRestart)
  {
    StepIs(s, RestartTimerFires(k, world));
    var svc := s.queue.timers[k].svc;
    var s1 := s.(queue := s.queue.(timers := s.queue.timers - {k}, pending := s.queue.pending - {svc.name}));
    DequeuedKeeps(s, 0, k);
    hide Step, Start, Inv;
    StartLeaves(s1, svc, true, true, world);
    if svc.name in s.starts.starting { CallJoins(s1, svc, true, true, world); }
    else { BeginsTask(s1, svc, true, true, world); }
  }

  /** When the start that a restart waited for is over, whatever its outcome, the row advertises none. */
  lemma OverAutoRestartUnmarks(s0: Supervisor, before: seq<Event>, e: Event, t: TaskId)
    requires Initial(s0) && InFlight(Run(s0, before), t) && Run(s0, before).starts.tasks[t].auto
    requires (e.PortResult? || e.BuildResult?) && e.task == t
    ensures var s', n := Step(Run(s0, before), e), Run(s0, before).starts.tasks[t].svc.name;
            t < |s'.starts.tasks| && s'.starts.tasks[t].phase.Settled? && Registered(s', n) ==>
              Entry(s', n).restartPendingUntil.None?
  {
    StartEndsExactly(s0, before, e, t);
    hide Run, Step, Initial, LeadsToSpawn, LeadsToFailure;
  }

  /** A request that is handed over begins a start of the service as its row has it, an explicit one or a restart;
   *  if the service has left the registry meanwhile nothing is begun. */
  ghost predicate HandedOver(s: Supervisor, s': Supervisor, q: nat, isRestart: bool)
    requires q < |s.requests| && s.requests[q].row < |s.rows|
  {
    var req, t := s.requests[q], |s.starts.tasks|;
    var svc := s.rows[req.row].svc;
    && s'.requests == s.requests[q := req.(phase := Handed)]
    && (req.name !in s.state ==> s' == s.(requests := s'.requests))
    && (Registered(s, req.name) && svc.name !in s.starts.starting ==>
          && |s'.starts.tasks| == t + 1
          && s'.starts.tasks[t]
             == StartTask(svc, isRestart, Generation(s, svc.name), false, s'.starts.tasks[t].phase))
  }

  lemma HandsOver(s: Supervisor, q: nat, isRestart: bool, world: World)
    requires Inv(s) && q < |s.requests|
    ensures s.requests[q].row < |s.rows| && HandedOver(s, HandOver(s, q, isRestart, world), q, isRestart)
  {
    assert RequestOk(s.rows, s.requests, q);
    var svc := s.rows[s.requests[q].row].svc;
    var s1 := s.(requests := s.requests[q := s.requests[q].(phase := Handed)]);
    StartLeaves(s1, svc, isRestart, false, world);
    if svc.name !in s.starts.starting { BeginsTask(s1, svc, isRestart, false, world); }
    hide Start, Inv;
  }

  /** What a request that is under way comes to: an explicit start once its install is done, a restart once the old
   *  process has had its time. */
  lemma RequestsHandOver(s: Supervisor, q: nat, world: World)
    requires Inv(s) && q < |s.requests|
    ensures s.requests[q].row < |s.rows|
    ensures var s' := Step(s, InstallDone(q, world));
            if s.requests[q].phase.Installing? then HandedOver(s, s', q, false) else s' == s
    ensures var s' := Step(s, RestartResume(q, world));
            if s.requests[q].phase.Settling? && s.requests[q].phase.due <= s.clock then HandedOver(s, s', q, true)
            else s' == s
  {
    StepIs(s, InstallDone(q, world));
    StepIs(s, RestartResume(q, world));
    hide Step, HandOver, Inv, HandedOver;
    HandsOver(s, q, false, world);
    HandsOver(s, q, true, world);
  }

  lemma DrainWrites(s: Supervisor, q: nat)
    requires Inv(s) && q < |s.requests|
    ensures var s', req := AfterDrain(s, q), s.requests[q];
            && s'.requests == s.requests[q := req.(phase := if Registered(s, req.name) then Installing else Handed)]
            && s'.starts == s.starts && s'.children == s.children
            && (Registered(s, req.name) ==>
                  req.row < |s'.rows| && s'.rows[req.row].restarts == 0 && Cancelled(s, s', req.name))
  {
    assert RequestOk(s.rows, s.requests, q);
    CancelCancels(s, s.requests[q].name);
    hide CancelRestart, Inv;
  }

  /** A start that waits for a process to go is on its way with its whole budget as soon as the process has gone,
   *  and gives up at its deadline if it has not. */
  lemma DrainEndsExactly(s: Supervisor, q: nat)
    requires Inv(s) && q < |s.requests| && s.requests[q].phase.Draining?
    ensures var s', req := Step(s, DrainOver(q)), s.requests[q];
            var gone := req.phase.child < |s.children| && s.children[req.phase.child].exited;
            && |s'.requests| == |s.requests| && s'.starts == s.starts && s'.children == s.children
            && s'.requests[q].phase == (if gone && Registered(s, req.name) then Installing
                                        else if gone || req.phase.deadline <= s.clock then Handed else req.phase)
            && (gone && Registered(s, req.name) ==>
                  req.row < |s'.rows| && s'.rows[req.row].restarts == 0 && Cancelled(s, s', req.name))
  {
    StepIs(s, DrainOver(q));
    DrainWrites(s, q);
    hide Step, AfterDrain, Inv, Cancelled;
  }

  // ---------------------------------------------------------------- registrations, idling, waking

  /** What the row of a service reads that has been registered without a process. */
  ghost predicate Registers(s: Supervisor, s': Supervisor, svc: ServiceConfig, status: Status, health: Health,
                      remote: Option<string>)
  {
    && Registered(s', svc.name) && s' == s.(rows := s'.rows, state := s'.state)
    && (forall m :: m != svc.name ==> (m in s'.state <==> m in s.state))
    && (forall m :: m in s.state && m != svc.name ==> s'.state[m] == s.state[m])
    && |s'.rows| == |s.rows| + 1 && s'.rows[..|s.rows|] == s.rows
    && var st := Entry(s', svc.name);
       && s'.state[svc.name] == |s.rows| && st.svc == svc && st.status == status && st.health == health
       && st.remote == remote && st.proc.None? && st.pid.None? && st.restarts == 0 && st.crashes == 0
       && !st.intentionalStop && st.restartPendingUntil.None?
       && st.startedAt == (if remote.Some? then Some(s.clock) else None)
  }

  lemma InstallReads(s: Supervisor, st: ProcessState)
    requires st.proc.None? && st.pid.None? && st.restarts == 0 && st.crashes == 0 && !st.intentionalStop
    requires st.restartPendingUntil.None? && st.startedAt == (if st.remote.Some? then Some(s.clock) else None)
    ensures Registers(s, Install(s, st.svc.name, st), st.svc, st.status, st.health, st.remote)
  {
    assert Install(s, st.svc.name, st).rows[..|s.rows|] == s.rows;
  }

  /** A service behind an on-demand proxy is registered asleep, one that an environment serves as running and not
   *  heard of yet; both with their whole budget and nothing of an earlier row of the name. */
  lemma RegistrationsRead(s: Supervisor, svc: ServiceConfig, env: string)
    ensures Registers(s, Step(s, RegisterLazyCall(svc)), svc, Idle, Asleep, None)
    ensures Registers(s, Step(s, RegisterRemoteCall(svc, env)), svc, Running, Waiting, Some(env))
  {
    StepIs(s, RegisterLazyCall(svc));
    StepIs(s, RegisterRemoteCall(svc, env));
    hide Step, Registers, Install;
    InstallReads(s, ProcessState(svc, None, None, None, Idle, Asleep, 0, 0, None, false, None, None));
    InstallReads(s, ProcessState(svc, None, None, None, Running, Waiting, 0, 0, Some(s.clock), false, None, Some(env)));
  }

  /** A service that is idled is told to stop if it runs, will not be restarted, and reads asleep, as if it had
   *  never been started; one that an environment serves is left alone. */
  lemma IdleStopSleeps(s: Supervisor, n: Name)
    requires Registered(s, n)
    ensures var s', st := Step(s, IdleStopCall(n)), Entry(s, n);
            if st.remote.Some? then s' == s
            else
              && Cancelled(s, s', n) && s'.state == s.state && s'.starts == s.starts && Registered(s', n)
              && Entry(s', n) == st.(status := Idle, health := Asleep, startedAt := None, restartPendingUntil := None,
                                     intentionalStop := st.intentionalStop || Stoppable(s, n))
  {
    StepIs(s, IdleStopCall(n));
    var s1 := CancelRestart(s, n);
    CancelCancels(s, n);
    SignalLeavesQueue(s1, n, false);
    assert Stoppable(s1, n) == Stoppable(s, n);
    hide Step, CancelRestart, SignalService, Stoppable;
  }

  /** A wake cancels a queued restart, and knows from the configuration that is live whether the service waits
   *  for a debugger. */
  lemma WakeBegins(s: Supervisor, svc: ServiceConfig)
    ensures var s' := Step(s, WakeBegin(svc));
            && Cancelled(s, s', svc.name) && s'.state == s.state && s'.children == s.children
            && |s'.wakes| == |s.wakes| + 1 && s'.wakes[..|s.wakes|] == s.wakes
            && s'.wakes[|s.wakes|].name == svc.name && s'.wakes[|s.wakes|].open
            && (s'.wakes[|s.wakes|].suspended
                <==> if Registered(s, svc.name) then Entry(s, svc.name).svc.suspended else svc.suspended)
  {
    StepIs(s, WakeBegin(svc));
    CancelCancels(s, svc.name);
    hide Step, CancelRestart;
  }

  /** A `--once` boot finds a service ready exactly when it is up, or its port answers and may be believed: it is
   *  an API, or has announced no way to say so, or its window is over.  It remembers of which row. */
  lemma FoundReadyExactly(s: Supervisor, svc: ServiceConfig, reachable: bool)
    ensures var s', n := Step(s, OnceSettles(svc, reachable)), svc.name;
            var live := if Registered(s, n) then Entry(s, n).svc else svc;
            var up := Registered(s, n) && Entry(s, n).health.Up?;
            var over := Registered(s, n) && Entry(s, n).status.TimedOut?;
            var row := if Registered(s, n) then Some(s.state[n]) else None;
            s' == s.(reports := if up || (reachable && (live.isApi || !live.hasReadyPattern || over))
                                then s.reports + [Report(n, row, true)] else s.reports)
  {
    StepIs(s, OnceSettles(svc, reachable));
    hide Step;
    assert s.(reports := s.reports) == s;
  }
}
