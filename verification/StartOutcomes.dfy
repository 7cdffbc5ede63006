/** How a start ends: when it spawns, what that adds, and what it leaves when it does not. */
module StartOutcomes {
  import opened Options
  import opened Supervision
  import opened SupervisionInvariants
  import opened SupervisionHistory

  // ---------------------------------------------------------------- a process has been added

  /** The row says that its process has just been started. */
  predicate JustStarted(st: ProcessState, svc: ServiceConfig, p: ChildId, spawned: bool, clock: nat) {
    && st.svc == svc && st.owned == Some(p) && st.proc == Some(p) && (st.pid.Some? <==> spawned)
    && st.status.Starting? && st.health.Waiting? && st.startedAt == Some(clock)
    && !st.intentionalStop && st.remote.None? && st.restartPendingUntil.None?
  }

  /** The counters of the row that was registered before, or none. */
  predicate CountersCarriedOver(s: Supervisor, st: ProcessState, n: Name) {
    if Registered(s, n) then st.restarts == Entry(s, n).restarts && st.crashes == Entry(s, n).crashes
    else st.restarts == 0 && st.crashes == 0
  }

  /** Exactly one process has been added, with this configuration.  It is listed, nobody has signalled it,
   *  and the row that is now registered describes it; its startup window, if it has one, is open, and no other
   *  of the name. */
  ghost predicate OneProcessAdded(s: Supervisor, s': Supervisor, svc: ServiceConfig, spawned: bool) {
    var p, r := |s.children|, |s.rows|;
    && s'.children == s.children + [Child(svc, r, spawned, false, false, false, false, false, false)]
    && s'.procs == s.procs + {p}
    && |s'.rows| == r + 1 && s'.rows[..r] == s.rows && s'.state == s.state[svc.name := r]
    && JustStarted(s'.rows[r], svc, p, spawned, s.clock) && CountersCarriedOver(s, s'.rows[r], svc.name)
    && (r in s'.windows.due <==> !svc.suspended && svc.startupTimeoutMs > 0)
    && (r in s'.windows.due ==> s'.windows.due[r] == s.clock + svc.startupTimeoutMs)
    && (svc.name in s'.windows.owner ==> s'.windows.owner[svc.name] == r)
    && s'.closing == s.closing && s'.clock == s.clock && s'.tallies == s.tallies && s'.queue == s.queue
  }

  /** The start is over, with this outcome, and callers of the name begin a new one. */
  predicate Over(s': Supervisor, t: TaskId, n: Name, outcome: Outcome) {
    && t < |s'.starts.tasks| && s'.starts.tasks[t].phase == Settled(outcome) && n !in s'.starts.starting
  }

  /** Nothing of the service is started, and its row reads crashed: not started, one crash more.  No startup
   *  window of the name is open. */
  predicate NotStarted(s: Supervisor, s': Supervisor, svc: ServiceConfig) {
    && s'.children == s.children && s'.procs == s.procs && s'.queue == s.queue
    && |s'.rows| == |s.rows| + 1 && s'.rows[..|s.rows|] == s.rows && s'.state == s.state[svc.name := |s.rows|]
    && svc.name !in s'.windows.owner
    && var st := s'.rows[|s.rows|];
       && st.svc == svc && st.status.Crashed? && st.health.Down? && st.proc.None? && st.pid.None?
       && st.owned.None? && st.startedAt.None? && st.remote.None? && st.restartPendingUntil.None?
       && !st.intentionalStop
       && (if Registered(s, svc.name)
           then st.restarts == Entry(s, svc.name).restarts && st.crashes == Entry(s, svc.name).crashes + 1
           else st.restarts == 0 && st.crashes == 1)
  }

  /** No row is registered anew and none written, but that an auto-restart stops advertising itself. */
  predicate RowsLeft(s: Supervisor, s': Supervisor, n: Name, auto: bool) {
    && s'.children == s.children && s'.procs == s.procs && s'.queue == s.queue && s'.state == s.state
    && |s'.rows| == |s.rows|
    && forall r :: 0 <= r < |s.rows| ==>
         s'.rows[r] == if auto && n in s.state && s.state[n] == r then s.rows[r].(restartPendingUntil := None)
                       else s.rows[r]
  }

  lemma SpawnAdds(s: Supervisor, t: TaskId, succeeds: bool)
    requires Inv(s) && t < |s.starts.tasks| && s.starts.tasks[t].svc.name !in s.windows.owner
    ensures var s', svc := Spawn(s, t, succeeds), s.starts.tasks[t].svc;
            && OneProcessAdded(s, s', svc, succeeds) && Over(s', t, svc.name, Spawned(|s.children|))
  {
    var s', svc := Spawn(s, t, succeeds), s.starts.tasks[t].svc;
    assert DueOk(s.rows, s.windows, |s.rows|);
    assert s'.rows[..|s.rows|] == s.rows;
  }

  lemma FailRecords(s: Supervisor, t: TaskId)
    requires t < |s.starts.tasks| && s.starts.tasks[t].svc.name !in s.windows.owner
    ensures var svc := s.starts.tasks[t].svc;
            var s' := Settle(RecordCrashed(s, svc), t, FailedBeforeStart);
            NotStarted(s, s', svc) && Over(s', t, svc.name, FailedBeforeStart)
  {
    assert Settle(RecordCrashed(s, s.starts.tasks[t].svc), t, FailedBeforeStart).rows[..|s.rows|] == s.rows;
  }

  lemma SettleLeavesRows(s: Supervisor, t: TaskId, outcome: Outcome)
    requires t < |s.starts.tasks|
    ensures RowsLeft(s, Settle(s, t, outcome), s.starts.tasks[t].svc.name, s.starts.tasks[t].auto)
    ensures Over(Settle(s, t, outcome), t, s.starts.tasks[t].svc.name, outcome)
  {}

  // ---------------------------------------------------------------- the last guards

  /** Nobody has removed the service since the start was called, and the manager is not shutting down. */
  predicate StillWanted(s: Supervisor, t: TaskId)
    requires t < |s.starts.tasks|
  {
    !s.closing && Generation(s, s.starts.tasks[t].svc.name) == s.starts.tasks[t].generation
  }

  /** What is left once nothing stands in the way of a start but the world and the callers. */
  ghost predicate EndsAsItMust(s: Supervisor, s': Supervisor, t: TaskId, world: World)
    requires t < |s.starts.tasks|
  {
    var svc := s.starts.tasks[t].svc;
    if !world.watchPathsExist then NotStarted(s, s', svc) && Over(s', t, svc.name, FailedBeforeStart)
    else if StillWanted(s, t) then
      OneProcessAdded(s, s', svc, world.spawnSucceeds) && Over(s', t, svc.name, Spawned(|s.children|))
    else
      RowsLeft(s, s', svc.name, s.starts.tasks[t].auto) && t < |s'.starts.tasks| && svc.name !in s'.starts.starting
      && s'.starts.tasks[t].phase.Settled? && (s'.starts.tasks[t].phase.outcome in {Removed, Refused})
  }

  lemma GuardsDecide(s: Supervisor, t: TaskId, world: World)
    requires Inv(s) && t < |s.starts.tasks| && s.starts.tasks[t].svc.name !in s.windows.owner
    ensures EndsAsItMust(s, AfterBuild(s, t, world), t, world)
  {
    hide Inv, Settle, Spawn, RecordCrashed, OneProcessAdded, NotStarted, RowsLeft;
    FailRecords(s, t);
    SpawnAdds(s, t, world.spawnSucceeds);
    SettleLeavesRows(s, t, Removed);
    SettleLeavesRows(s, t, Refused);
  }

  lemma WindowsAside(s: Supervisor, n: Name, t: TaskId)
    requires Inv(s) && t < |s.starts.tasks|
    ensures var s1 := ClearStartupTimer(s, n, None);
            && Inv(s1) && s1 == s.(windows := s1.windows) && n !in s1.windows.owner
            && forall s', world :: EndsAsItMust(s1, s', t, world) ==> EndsAsItMust(s, s', t, world)
  {
    ClearStartupTimerKeeps(s, n, None);
    hide Inv;
  }

  // ---------------------------------------------------------------- every segment that can end a start

  /** The port is the service's for the taking: free, or about to be left by the process it restarts. */
  predicate PortIsFree(phase: StartPhase, isRestart: bool, bindable: bool) {
    (phase.PortCheck? && (bindable || isRestart)) || (phase.PortRecheck? && bindable)
  }

  /** The pre-build is under way, and only that has changed. */
  predicate NowBuilding(s: Supervisor, s': Supervisor, t: TaskId)
    requires t < |s.starts.tasks|
  {
    && s' == s.(starts := s'.starts, windows := s'.windows) && s'.starts.starting == s.starts.starting
    && s'.starts.tasks == s.starts.tasks[t := s.starts.tasks[t].(phase := Building)]
  }

  lemma FreePortGoesOn(s: Supervisor, t: TaskId, world: World)
    requires Inv(s) && t < |s.starts.tasks|
    ensures var s', svc := AfterPort(s, t, world), s.starts.tasks[t].svc;
            if !svc.hasPreBuild then EndsAsItMust(s, s', t, world)
            else if s.closing then RowsLeft(s, s', svc.name, s.starts.tasks[t].auto) && Over(s', t, svc.name, Refused)
            else NowBuilding(s, s', t)
  {
    var svc := s.starts.tasks[t].svc;
    var s1 := ClearStartupTimer(s, svc.name, None);
    WindowsAside(s, svc.name, t);
    GuardsDecide(s1, t, world);
    SettleLeavesRows(s1, t, Refused);
    hide Inv, AfterBuild, EndsAsItMust, ClearStartupTimer, Settle;
  }

  lemma TakenPortFails(s: Supervisor, t: TaskId)
    requires t < |s.starts.tasks|
    ensures var svc := s.starts.tasks[t].svc;
            NotStarted(s, PortTaken(s, t), svc) && Over(PortTaken(s, t), t, svc.name, FailedBeforeStart)
  {
    var svc := s.starts.tasks[t].svc;
    var s1 := ClearStartupTimer(s, svc.name, None);
    assert s1 == s.(windows := s1.windows) && svc.name !in s1.windows.owner;
    FailRecords(s1, t);
    hide ClearStartupTimer, Settle, RecordCrashed;
  }

  /** A port somebody holds: a service that runs is left alone, one that is being stopped is waited for,
   *  and otherwise the start has failed. */
  ghost predicate EndsOnTakenPort(s: Supervisor, s': Supervisor, t: TaskId)
    requires t < |s.starts.tasks|
  {
    var task := s.starts.tasks[t];
    var n := task.svc.name;
    if task.phase.PortCheck? && Registered(s, n) && IsRunning(s, Entry(s, n)) then
      if Entry(s, n).intentionalStop then
        var wait := ExitWait(Entry(s, n).proc.value, s.clock + STOP_GRACE_MS);
        && RowsLeft(s, s', n, false) && s'.starts.starting == s.starts.starting
        && s'.starts.tasks == s.starts.tasks[t := task.(phase := wait)]
      else RowsLeft(s, s', n, task.auto) && Over(s', t, n, LeftAlone)
    else NotStarted(s, s', task.svc) && Over(s', t, n, FailedBeforeStart)
  }

  lemma PortDecides(s: Supervisor, t: TaskId, bindable: bool, world: World)
    requires Inv(s) && InFlight(s, t)
    ensures var s', task := OnPortResult(s, t, bindable, world), s.starts.tasks[t];
            if PortIsFree(task.phase, task.isRestart, bindable) then s' == AfterPort(s, t, world)
            else if task.phase.PortCheck? || task.phase.PortRecheck? then EndsOnTakenPort(s, s', t)
            else s' == s
  {
    SettleLeavesRows(s, t, LeftAlone);
    TakenPortFails(s, t);
    hide Inv, AfterPort, PortTaken, Settle, NotStarted;
  }

  // ---------------------------------------------------------------- when a start spawns

  /** What it takes for the segment to end the start with a process. */
  predicate LeadsToSpawn(s: Supervisor, e: Event, t: TaskId)
    requires InFlight(s, t) && (e.PortResult? || e.BuildResult?)
  {
    var task := s.starts.tasks[t];
    && e.task == t && e.world.watchPathsExist && StillWanted(s, t)
    && if e.BuildResult? then task.phase.Building? && e.ok
       else !task.svc.hasPreBuild && PortIsFree(task.phase, task.isRestart, e.bindable)
  }

  /** What it takes for the segment to end the start without one, and with a crash in its row. */
  predicate LeadsToFailure(s: Supervisor, e: Event, t: TaskId)
    requires InFlight(s, t) && (e.PortResult? || e.BuildResult?)
  {
    var task := s.starts.tasks[t];
    var n := task.svc.name;
    if e.BuildResult? then task.phase.Building? && !(e.ok && e.world.watchPathsExist)
    else if PortIsFree(task.phase, task.isRestart, e.bindable) then !task.svc.hasPreBuild && !e.world.watchPathsExist
    else task.phase.PortRecheck? || (task.phase.PortCheck? && !(Registered(s, n) && IsRunning(s, Entry(s, n))))
  }

  /** The segment ends the start with a process, or with a crash in its row; or it starts nothing, and registers
   *  and writes no row, but that an auto-restart that is over stops advertising itself. */
  ghost predicate Ends(s: Supervisor, s': Supervisor, e: Event, t: TaskId)
    requires InFlight(s, t) && (e.PortResult? || e.BuildResult?)
  {
    var svc := s.starts.tasks[t].svc;
    if LeadsToSpawn(s, e, t)
    then OneProcessAdded(s, s', svc, e.world.spawnSucceeds) && Over(s', t, svc.name, Spawned(|s.children|))
    else if LeadsToFailure(s, e, t) then NotStarted(s, s', svc) && Over(s', t, svc.name, FailedBeforeStart)
    else
      && t < |s'.starts.tasks| && !DidSpawn(s'.starts.tasks[t])
      && RowsLeft(s, s', svc.name, s'.starts.tasks[t].phase.Settled? && s.starts.tasks[t].auto)
  }

  lemma BuildingLeavesRows(s: Supervisor, s': Supervisor, t: TaskId, n: Name)
    requires t < |s.starts.tasks|
    ensures NowBuilding(s, s', t) ==> RowsLeft(s, s', n, false)
    ensures NowBuilding(s, s', t) ==> t < |s'.starts.tasks| && s'.starts.tasks[t].phase.Building?
    ensures RowsLeft(s, s, n, false)
  {}

  lemma PortEnds(s: Supervisor, t: TaskId, bindable: bool, world: World)
    requires Inv(s) && InFlight(s, t)
    ensures Ends(s, OnPortResult(s, t, bindable, world), PortResult(t, bindable, world), t)
  {
    hide Inv, AfterPort, OnPortResult, OneProcessAdded, NotStarted, IsRunning, NowBuilding, RowsLeft;
    PortDecides(s, t, bindable, world);
    FreePortGoesOn(s, t, world);
    BuildingLeavesRows(s, OnPortResult(s, t, bindable, world), t, s.starts.tasks[t].svc.name);
  }

  lemma EndsWithProcess(s: Supervisor, s': Supervisor, e: Event, t: TaskId)
    requires InFlight(s, t) && (e.PortResult? || e.BuildResult?) && Ends(s, s', e, t) && LeadsToSpawn(s, e, t)
    ensures var svc := s.starts.tasks[t].svc;
            OneProcessAdded(s, s', svc, e.world.spawnSucceeds) && Over(s', t, svc.name, Spawned(|s.children|))
  {}

  lemma BuildEndsIt(s: Supervisor, t: TaskId, ok: bool, world: World)
    requires Inv(s) && InFlight(s, t)
    ensures Ends(s, OnBuildResult(s, t, ok, world), BuildResult(t, ok, world), t)
  {
    if s.starts.tasks[t].phase.Building? {
      BuildingIsQuiet(s, t);
      GuardsDecide(s, t, world);
      FailRecords(s, t);
      hide AfterBuild, OneProcessAdded, Settle, RecordCrashed, NotStarted;
    }
    hide Inv;
  }

  lemma BuildingIsQuiet(s: Supervisor, t: TaskId)
    requires Inv(s) && t < |s.starts.tasks| && s.starts.tasks[t].phase.Building?
    ensures s.starts.tasks[t].svc.name !in s.windows.owner
  {
    assert BuildingOk(s.starts.tasks, s.windows, t);
  }

  /** A start in flight ends with a process exactly when its port is free, or its pre-build has passed, in a
   *  world where its watch paths exist, and nobody has removed it nor closed the manager meanwhile.  Then
   *  exactly one process is added, with the configuration of the start.  It ends with a crash in its row exactly
   *  when the port is somebody else's, the pre-build has failed or a watch path is missing; and otherwise it
   *  starts nothing and writes nothing. */
  lemma StartEndsExactly(s0: Supervisor, before: seq<Event>, e: Event, t: TaskId)
    requires Initial(s0) && InFlight(Run(s0, before), t)
    requires e.PortResult? || e.BuildResult?
    requires e.task == t
    ensures Ends(Run(s0, before), Step(Run(s0, before), e), e, t)
  {
    var s := Run(s0, before);
    ReachableInv(s0, before);
    hide *;
    StepIs(s, e);
    if e.PortResult? { PortEnds(s, t, e.bindable, e.world); } else { BuildEndsIt(s, t, e.ok, e.world); }
  }

  // ---------------------------------------------------------------- every start comes to an end

  /** How long it takes until a start that waits for a process to go no longer does. */
  function Patience(s: Supervisor, t: TaskId): nat
    requires t < |s.starts.tasks|
  {
    var phase := s.starts.tasks[t].phase;
    if phase.ExitWait? && phase.deadline > s.clock + STOP_GRACE_MS then phase.deadline - s.clock else STOP_GRACE_MS
  }

  /** The answers a start may have to wait for, one after the other. */
  datatype Answers = Answers(first: bool, second: bool, built: bool, worlds: (World, World, World))

  /** All is well, but for the first look at the port perhaps. */
  function AllWell(first: bool): Answers {
    Answers(first, true, true, (FINE, FINE, FINE))
  }

  const ALL_WELL: Answers := AllWell(true)

  /** Everything that a start in flight waits for happens. */
  function CarryOn(s: Supervisor, t: TaskId, a: Answers): seq<Event>
    requires t < |s.starts.tasks|
  {
    [PortResult(t, a.first, a.worlds.0), Tick(Patience(s, t)), ExitWaitOver(t),
     PortResult(t, a.second, a.worlds.1), BuildResult(t, a.built, a.worlds.2)]
  }

  lemma FiveSteps(s: Supervisor, a: Event, b: Event, c: Event, d: Event, e: Event)
    ensures Run(s, [a, b, c, d, e]) == Step(Step(Step(Step(Step(s, a), b), c), d), e)
  {
    hide Step;
    var s1 := Step(s, a);
    var s2 := Step(s1, b);
    var s3 := Step(s2, c);
    var s4 := Step(s3, d);
    assert [a, b, c, d, e][1..] == [b, c, d, e] && [b, c, d, e][1..] == [c, d, e];
    assert [c, d, e][1..] == [d, e] && [d, e][1..] == [e] && [e][1..] == [];
    assert Run(s, [a, b, c, d, e]) == Run(s1, [b, c, d, e]);
    assert Run(s1, [b, c, d, e]) == Run(s2, [c, d, e]);
    assert Run(s2, [c, d, e]) == Run(s3, [d, e]);
    assert Run(s3, [d, e]) == Run(s4, [e]);
  }

  /** The start is over, builds, or is in flight with nothing done for it so far but the clock. */
  ghost predicate OnItsWay(s: Supervisor, s': Supervisor, t: TaskId)
    requires t < |s.starts.tasks|
  {
    var task := s.starts.tasks[t];
    && s' == s.(clock := s'.clock, starts := s'.starts, windows := s'.windows, rows := s'.rows)
    && s.clock <= s'.clock && s'.rows == s.rows && s'.starts.starting == s.starts.starting
    && InFlight(s', t) && s'.starts.tasks[t] == task.(phase := s'.starts.tasks[t].phase)
  }

  /** Since `b` exactly one process has been added, with this configuration and nobody against it, and its
   *  row is the registered one. */
  ghost predicate ServiceUp(b: Supervisor, s: Supervisor, svc: ServiceConfig) {
    var p, r := |b.children|, |b.rows|;
    && s.children == b.children + [Child(svc, r, true, false, false, false, false, false, false)]
    && |s.rows| == r + 1 && s.rows[..r] == b.rows && s.state == b.state[svc.name := r]
    && s.rows[r].startedAt.Some? && b.clock <= s.rows[r].startedAt.value <= s.clock
    && JustStarted(s.rows[r], svc, p, true, s.rows[r].startedAt.value) && CountersCarriedOver(b, s.rows[r], svc.name)
    && s.closing == b.closing
  }

  /** And it is the process that the start settles as spawned of. */
  ghost predicate CameUp(b: Supervisor, s: Supervisor, t: TaskId)
    requires t < |b.starts.tasks|
  {
    var svc := b.starts.tasks[t].svc;
    ServiceUp(b, s, svc) && Over(s, t, svc.name, Spawned(|b.children|))
  }

  /** How far the start has come, if all goes well, or whatever the answers are. */
  ghost predicate Fares(b: Supervisor, s: Supervisor, t: TaskId, well: bool)
    requires t < |b.starts.tasks|
  {
    if well then CameUp(b, s, t) else t < |s.starts.tasks| && s.starts.tasks[t].phase.Settled?
  }

  ghost predicate Going(b: Supervisor, s: Supervisor, t: TaskId, well: bool)
    requires t < |b.starts.tasks|
  {
    Inv(s) && (Fares(b, s, t, well) || OnItsWay(b, s, t))
  }

  /** A restart takes its port from the process that it replaces. */
  predicate TakesPort(s: Supervisor, t: TaskId)
    requires t < |s.starts.tasks|
  {
    s.starts.tasks[t].isRestart && !s.starts.tasks[t].phase.PortRecheck?
  }

  predicate Favourable(s: Supervisor, t: TaskId, e: Event)
    requires t < |s.starts.tasks|
  {
    && (e.PortResult? ==> (e.bindable || TakesPort(s, t)) && e.world == FINE)
    && (e.BuildResult? ==> e.ok && e.world == FINE)
  }

  lemma AddedIsUp(b: Supervisor, s: Supervisor, s': Supervisor, t: TaskId)
    requires t < |b.starts.tasks| && OnItsWay(b, s, t)
    requires var svc := b.starts.tasks[t].svc;
             OneProcessAdded(s, s', svc, true) && Over(s', t, svc.name, Spawned(|s.children|))
    ensures CameUp(b, s', t)
  {}

  lemma SettledIsLeft(s: Supervisor, t: TaskId, e: Event)
    requires t < |s.starts.tasks| && s.starts.tasks[t].phase.Settled?
    requires (e.PortResult? || e.BuildResult? || e.ExitWaitOver?) && e.task == t
    ensures Step(s, e) == s
  {}

  lemma UpStaysUp(b: Supervisor, s: Supervisor, t: TaskId, well: bool, ms: nat)
    requires t < |b.starts.tasks| && Fares(b, s, t, well)
    ensures Fares(b, Step(s, Tick(ms)), t, well)
  {}

  lemma WaitingGoesOn(b: Supervisor, s: Supervisor, t: TaskId, e: Event)
    requires t < |b.starts.tasks| && OnItsWay(b, s, t)
    requires e.Tick? || (e.ExitWaitOver? && e.task == t)
    ensures OnItsWay(b, Step(s, e), t)
  {}

  lemma PortGoesOn(b: Supervisor, s: Supervisor, t: TaskId, bindable: bool, world: World, well: bool)
    requires t < |b.starts.tasks| && OnItsWay(b, s, t) && Inv(s)
    requires well ==> StillWanted(b, t) && (bindable || TakesPort(s, t)) && world == FINE
    ensures var s' := OnPortResult(s, t, bindable, world);
            Fares(b, s', t, well) || OnItsWay(b, s', t)
  {
    var s', task := OnPortResult(s, t, bindable, world), s.starts.tasks[t];
    PortDecides(s, t, bindable, world);
    FreePortGoesOn(s, t, world);
    PortEnds(s, t, bindable, world);
    if well && LeadsToSpawn(s, PortResult(t, bindable, world), t) {
      EndsWithProcess(s, s', PortResult(t, bindable, world), t);
      AddedIsUp(b, s, s', t);
    }
    hide OnPortResult, AfterPort, OneProcessAdded, Inv, CameUp, NotStarted, Ends;
    assert !PortIsFree(task.phase, task.isRestart, bindable) && task.phase.PortCheck? ==> !well;
    if PortIsFree(task.phase, task.isRestart, bindable) && task.svc.hasPreBuild && !s.closing {
      assert OnItsWay(b, s', t);
    }
  }

  lemma BuildGoesOn(b: Supervisor, s: Supervisor, t: TaskId, ok: bool, world: World, well: bool)
    requires t < |b.starts.tasks| && OnItsWay(b, s, t) && Inv(s)
    requires well ==> StillWanted(b, t) && ok && world == FINE
    ensures var s' := OnBuildResult(s, t, ok, world);
            Fares(b, s', t, well) || OnItsWay(b, s', t)
  {
    var s' := OnBuildResult(s, t, ok, world);
    assert BuildingOk(s.starts.tasks, s.windows, t);
    if s.starts.tasks[t].phase.Building? {
      GuardsDecide(s, t, world);
      FailRecords(s, t);
    }
    BuildEndsIt(s, t, ok, world);
    if well && LeadsToSpawn(s, BuildResult(t, ok, world), t) { AddedIsUp(b, s, s', t); }
    hide OnItsWay, AfterBuild, OneProcessAdded, Inv, CameUp, Settle, RecordCrashed;
  }

  lemma FavourableMeans(s: Supervisor, t: TaskId, e: Event)
    requires t < |s.starts.tasks|
    ensures Favourable(s, t, e) && e.PortResult? ==> (e.bindable || TakesPort(s, t)) && e.world == FINE
    ensures Favourable(s, t, e) && e.BuildResult? ==> e.ok && e.world == FINE
  {}

  lemma GoingMeans(b: Supervisor, s: Supervisor, t: TaskId, well: bool)
    requires t < |b.starts.tasks|
    ensures Going(b, s, t, well) <==> Inv(s) && (Fares(b, s, t, well) || OnItsWay(b, s, t))
    ensures Fares(b, s, t, well) ==> t < |s.starts.tasks| && s.starts.tasks[t].phase.Settled?
    ensures Going(b, s, t, well) ==> t < |s.starts.tasks|
  {}

  lemma StepGoes(b: Supervisor, s: Supervisor, t: TaskId, e: Event, well: bool)
    requires t < |b.starts.tasks| && t < |s.starts.tasks| && Going(b, s, t, well)
    requires well ==> StillWanted(b, t) && Favourable(s, t, e)
    requires e.Tick? || ((e.PortResult? || e.BuildResult? || e.ExitWaitOver?) && e.task == t)
    ensures Going(b, Step(s, e), t, well)
  {
    hide *;
    FavourableMeans(s, t, e);
    StepIs(s, e);
    GoingMeans(b, s, t, well);
    GoingMeans(b, Step(s, e), t, well);
    if Fares(b, s, t, well) {
      if e.Tick? { UpStaysUp(b, s, t, well, e.ms); } else { SettledIsLeft(s, t, e); }
    } else if e.PortResult? { PortGoesOn(b, s, t, e.bindable, e.world, well); }
    else if e.BuildResult? { BuildGoesOn(b, s, t, e.ok, e.world, well); }
    else { WaitingGoesOn(b, s, t, e); }
    StepKeeps(s, e);
  }

  /** How many of its phases a start has still before it. */
  function Ahead(phase: StartPhase): nat {
    match phase
    case PortCheck => 4
    case ExitWait(_, _) => 3
    case PortRecheck => 2
    case Building => 1
    case Settled(_) => 0
  }

  /** At most that many phases are left, and a wait for a process to go ends by `latest`. */
  predicate AtMost(s: Supervisor, t: TaskId, phases: nat, latest: nat) {
    && t < |s.starts.tasks| && Ahead(s.starts.tasks[t].phase) <= phases
    && (s.starts.tasks[t].phase.ExitWait? ==> s.starts.tasks[t].phase.deadline <= latest)
  }

  lemma ClockStands(s: Supervisor, t: TaskId, bindable: bool, world: World)
    ensures OnPortResult(s, t, bindable, world).clock == s.clock
  {}

  /** The answer of the port: the check is behind the start, and so is the second one if it was at it. */
  lemma PortMovesOn(s: Supervisor, t: TaskId, bindable: bool, world: World, latest: nat)
    requires Inv(s) && AtMost(s, t, 4, latest) && s.clock + STOP_GRACE_MS <= latest
    ensures var s' := Step(s, PortResult(t, bindable, world));
            AtMost(s', t, if AtMost(s, t, 2, latest) then 1 else 3, latest) && s'.clock == s.clock
  {
    hide Step, Inv;
    StepIs(s, PortResult(t, bindable, world));
    ClockStands(s, t, bindable, world);
    hide OnPortResult;
    if InFlight(s, t) { PhaseAfterPort(s, t, bindable, world); }
    else { SettledIsLeft(s, t, PortResult(t, bindable, world)); }
  }

  lemma PhaseAfterPort(s: Supervisor, t: TaskId, bindable: bool, world: World)
    requires Inv(s) && InFlight(s, t)
    ensures var s', phase := OnPortResult(s, t, bindable, world), s.starts.tasks[t].phase;
            && t < |s'.starts.tasks|
            && var later := s'.starts.tasks[t].phase;
               || (later == phase && (phase.ExitWait? || phase.Building?)) || later.Building? || later.Settled?
               || (phase.PortCheck? && later.ExitWait? && later.deadline == s.clock + STOP_GRACE_MS)
  {
    PortDecides(s, t, bindable, world);
    FreePortGoesOn(s, t, world);
    hide Inv, OnPortResult, AfterPort, OneProcessAdded, NotStarted, StillWanted;
  }

  lemma WaitEnds(s: Supervisor, t: TaskId, ms: nat)
    requires AtMost(s, t, 3, s.clock + ms)
    ensures var s1 := Step(s, Tick(ms));
            var s2 := Step(s1, ExitWaitOver(t));
            AtMost(s2, t, 2, s2.clock)
  {
    hide Step;
    StepIs(s, Tick(ms));
    StepIs(Step(s, Tick(ms)), ExitWaitOver(t));
  }

  lemma BuildEnds(s: Supervisor, t: TaskId, ok: bool, world: World)
    requires Inv(s) && t < |s.starts.tasks| && Ahead(s.starts.tasks[t].phase) <= 1
    ensures var s' := Step(s, BuildResult(t, ok, world));
            t < |s'.starts.tasks| && s'.starts.tasks[t].phase.Settled?
  {
    hide Step, Inv;
    StepIs(s, BuildResult(t, ok, world));
    if InFlight(s, t) {
      BuildingIsQuiet(s, t);
      GuardsDecide(s, t, world);
      FailRecords(s, t);
      hide AfterBuild, RecordCrashed, Settle;
    }
  }

  lemma AllWellIsFavourable(s: Supervisor, t: TaskId, first: bool)
    requires t < |s.starts.tasks| && (first || TakesPort(s, t))
    ensures Favourable(s, t, PortResult(t, first, FINE)) && Favourable(s, t, BuildResult(t, true, FINE))
    ensures Favourable(s, t, ExitWaitOver(t)) && forall ms :: Favourable(s, t, Tick(ms))
  {}

  /** The answers are good, given how the start stands. */
  predicate GoodAnswers(s: Supervisor, t: TaskId, a: Answers)
    requires t < |s.starts.tasks|
  {
    a == AllWell(a.first) && (a.first || TakesPort(s, t))
  }

  lemma OneGoes(b: Supervisor, s: Supervisor, t: TaskId, e: Event, a: Answers, well: bool)
    requires t < |b.starts.tasks| && Going(b, s, t, well) && (well ==> a == AllWell(a.first) && StillWanted(b, t))
    requires e.Tick? || e == ExitWaitOver(t) || e == PortResult(t, a.second, a.worlds.1)
          || e == BuildResult(t, a.built, a.worlds.2)
    ensures Going(b, Step(s, e), t, well)
  {
    hide Going, Step, Favourable, StillWanted, Inv, InFlight, TakesPort;
    GoingMeans(b, s, t, well);
    AllWellIsFavourable(s, t, true);
    StepGoes(b, s, t, e, well);
  }

  /** In all five steps what has been done for the start is its process, once all is well, or nothing. */
  lemma StaysGoing(b: Supervisor, s: Supervisor, t: TaskId, a: Answers, ms: nat, well: bool)
    requires t < |b.starts.tasks| && t < |s.starts.tasks| && Going(b, s, t, well)
    requires well ==> GoodAnswers(s, t, a) && StillWanted(b, t)
    ensures var s1 := Step(s, PortResult(t, a.first, a.worlds.0));
            var s3 := Step(Step(s1, Tick(ms)), ExitWaitOver(t));
            var s4 := Step(s3, PortResult(t, a.second, a.worlds.1));
            && Going(b, s1, t, well) && Going(b, s3, t, well) && Going(b, s4, t, well)
            && Going(b, Step(s4, BuildResult(t, a.built, a.worlds.2)), t, well)
  {
    var e1, e2, e3 := PortResult(t, a.first, a.worlds.0), Tick(ms), ExitWaitOver(t);
    var e4, e5 := PortResult(t, a.second, a.worlds.1), BuildResult(t, a.built, a.worlds.2);
    hide Going, Step, Favourable, StillWanted, Inv, InFlight, TakesPort;
    if well { AllWellIsFavourable(s, t, a.first); }
    StepGoes(b, s, t, e1, well);
    var s1 := Step(s, e1);
    OneGoes(b, s1, t, e2, a, well);
    var s2 := Step(s1, e2);
    OneGoes(b, s2, t, e3, a, well);
    var s3 := Step(s2, e3);
    OneGoes(b, s3, t, e4, a, well);
    OneGoes(b, Step(s3, e4), t, e5, a, well);
  }

  lemma CarryOnIs(s: Supervisor, t: TaskId, a: Answers)
    requires t < |s.starts.tasks|
    ensures var s1 := Step(s, PortResult(t, a.first, a.worlds.0));
            var s3 := Step(Step(s1, Tick(Patience(s, t))), ExitWaitOver(t));
            var s4 := Step(s3, PortResult(t, a.second, a.worlds.1));
            Run(s, CarryOn(s, t, a)) == Step(s4, BuildResult(t, a.built, a.worlds.2))
  {
    hide Step, Run, Patience;
    FiveSteps(s, PortResult(t, a.first, a.worlds.0), Tick(Patience(s, t)), ExitWaitOver(t),
              PortResult(t, a.second, a.worlds.1), BuildResult(t, a.built, a.worlds.2));
  }

  lemma BeginsAtMost(s: Supervisor, t: TaskId)
    requires t < |s.starts.tasks|
    ensures AtMost(s, t, 4, s.clock + Patience(s, t)) && STOP_GRACE_MS <= Patience(s, t)
  {}

  lemma CarriesOn(b: Supervisor, s: Supervisor, t: TaskId, a: Answers, well: bool)
    requires t < |b.starts.tasks| && t < |s.starts.tasks| && Going(b, s, t, well)
    requires well ==> GoodAnswers(s, t, a) && StillWanted(b, t)
    ensures Fares(b, Run(s, CarryOn(s, t, a)), t, well)
  {
    hide Step, Run, Inv, StillWanted, Going, Fares, AtMost, GoodAnswers, CarryOn, Patience;
    var ms := Patience(s, t);
    var s1 := Step(s, PortResult(t, a.first, a.worlds.0));
    var s3 := Step(Step(s1, Tick(ms)), ExitWaitOver(t));
    var s4 := Step(s3, PortResult(t, a.second, a.worlds.1));
    CarryOnIs(s, t, a);
    StaysGoing(b, s, t, a, ms, well);
    BeginsAtMost(s, t);
    GoingMeans(b, s, t, well);
    PortMovesOn(s, t, a.first, a.worlds.0, s.clock + ms);
    AtMostThree(s, s1, t, s.clock + ms);
    GoingMeans(b, s3, t, well);
    GoingMeans(b, s4, t, well);
    LastPhases(s1, t, a, ms);
    GoingMeans(b, Step(s4, BuildResult(t, a.built, a.worlds.2)), t, well);
  }

  lemma AtMostThree(s: Supervisor, s1: Supervisor, t: TaskId, latest: nat)
    requires AtMost(s1, t, if AtMost(s, t, 2, latest) then 1 else 3, latest)
    ensures AtMost(s1, t, 3, latest)
  {}

  lemma LastPhases(s1: Supervisor, t: TaskId, a: Answers, ms: nat)
    requires AtMost(s1, t, 3, s1.clock + ms)
    requires var s3 := Step(Step(s1, Tick(ms)), ExitWaitOver(t));
             Inv(s3) && Inv(Step(s3, PortResult(t, a.second, a.worlds.1)))
    ensures var s4 := Step(Step(Step(s1, Tick(ms)), ExitWaitOver(t)), PortResult(t, a.second, a.worlds.1));
            var f := Step(s4, BuildResult(t, a.built, a.worlds.2));
            t < |f.starts.tasks| && f.starts.tasks[t].phase.Settled?
  {
    hide Step, Inv;
    WaitEnds(s1, t, ms);
    var s3 := Step(Step(s1, Tick(ms)), ExitWaitOver(t));
    PortMovesOn(s3, t, a.second, a.worlds.1, s3.clock + STOP_GRACE_MS);
    BuildEnds(Step(s3, PortResult(t, a.second, a.worlds.1)), t, a.built, a.worlds.2);
  }

  /** No start hangs: once what it waits for has happened it is over, whatever the answers were. */
  lemma EveryStartSettles(s0: Supervisor, before: seq<Event>, t: TaskId, a: Answers)
    requires Initial(s0) && InFlight(Run(s0, before), t)
    ensures var s := Run(s0, before);
            var f := Run(s, CarryOn(s, t, a));
            t < |f.starts.tasks| && f.starts.tasks[t].phase.Settled?
  {
    ReachableInv(s0, before);
    var s := Run(s0, before);
    assert Going(s, s, t, false);
    hide *;
    CarriesOn(s, s, t, a, false);
    GoingMeans(s, Run(s, CarryOn(s, t, a)), t, false);
  }

  /** A start that nobody overtakes comes up: if the answers are good, the service has not been removed since
   *  the call and the manager is not closing, exactly one process is added for it, with its configuration, and
   *  the start settles as spawned of it, whichever segment it was in and whether or not there is a pre-build. */
  lemma StartComesUp(s0: Supervisor, before: seq<Event>, t: TaskId)
    requires Initial(s0) && InFlight(Run(s0, before), t) && StillWanted(Run(s0, before), t)
    ensures var s := Run(s0, before);
            CameUp(s, Run(s, CarryOn(s, t, ALL_WELL)), t)
  {
    ReachableInv(s0, before);
    var s := Run(s0, before);
    assert Going(s, s, t, true);
    CarriesOn(s, s, t, ALL_WELL, true);
    hide Run, CameUp;
  }

  // ---------------------------------------------------------------- every call for a start

  /** Why a start is refused at once. */
  predicate MayNotStart(s: Supervisor, n: Name) {
    s.closing || (Registered(s, n) && Entry(s, n).remote.Some?)
  }

  lemma EnterTask(s: Supervisor, task: StartTask)
    requires Inv(s) && task.svc.name !in s.starts.starting && task.phase.PortCheck?
    ensures var b, t := Enter(s, task), |s.starts.tasks|;
            && Inv(b) && InFlight(b, t) && b == s.(starts := b.starts) && b.starts.tasks[t] == task
            && b.starts.starting == s.starts.starting[task.svc.name := t]
            && |b.starts.tasks| == t + 1 && OnItsWay(b, b, t)
  {
    EnterKeeps(s, task);
  }

  lemma RefusedAtOnce(s: Supervisor, task: StartTask)
    ensures var t := |s.starts.tasks|;
            var s' := Settle(Enter(s, task), t, Refused);
            RowsLeft(s, s', task.svc.name, task.auto) && Over(s', t, task.svc.name, Refused)
  {}

  /** A call with no start of the name in flight begins one, and refuses it at once only when the manager is
   *  closing or the service is served from an environment. */
  lemma CallBegins(s: Supervisor, svc: ServiceConfig, isRestart: bool, auto: bool, world: World)
    requires Inv(s) && svc.name !in s.starts.starting
    ensures var t := |s.starts.tasks|;
            var b := Enter(s, StartTask(svc, isRestart, Generation(s, svc.name), auto, PortCheck));
            var s' := Start(s, svc, isRestart, auto, world);
            && Inv(b) && t < |b.starts.tasks| && b == s.(starts := b.starts) && b.starts.tasks[t].svc == svc
            && (StillWanted(b, t) <==> !s.closing)
            && if MayNotStart(s, svc.name) then RowsLeft(s, s', svc.name, auto) && Over(s', t, svc.name, Refused)
               else if svc.isApi then s' == b
               else if svc.hasPreBuild then NowBuilding(b, s', t)
               else EndsAsItMust(b, s', t, world)
  {
    var task := StartTask(svc, isRestart, Generation(s, svc.name), auto, PortCheck);
    var b := Enter(s, task);
    EnterTask(s, task);
    RefusedAtOnce(s, task);
    FreePortGoesOn(b, |s.starts.tasks|, world);
    hide Inv, AfterPort, Settle, EndsAsItMust, Enter, OnItsWay, RowsLeft, NowBuilding;
  }

  /** A restart whose timer goes off while a start of the name is in flight waits for it, so that the mark of the
   *  restart goes when that start is over; it begins no second one.  Another caller just waits. */
  lemma CallJoins(s: Supervisor, svc: ServiceConfig, isRestart: bool, auto: bool, world: World)
    requires Inv(s) && svc.name in s.starts.starting
    ensures var t, s' := s.starts.starting[svc.name], Start(s, svc, isRestart, auto, world);
            && InFlight(s, t) && s.starts.tasks[t].svc.name == svc.name
            && s' == s.(starts := s'.starts) && s'.starts.starting == s.starts.starting
            && |s'.starts.tasks| == |s.starts.tasks|
            && s'.starts.tasks[t] == s.starts.tasks[t].(auto := auto || s.starts.tasks[t].auto)
            && forall u :: 0 <= u < |s.starts.tasks| && u != t ==> s'.starts.tasks[u] == s.starts.tasks[u]
  {
    assert StartingOk(s.starts, svc.name);
  }

  /** A start that waits for a process goes back to the port as soon as that process has gone, or at its deadline,
   *  and not before. */
  lemma WaitEndsExactly(s: Supervisor, t: TaskId)
    requires InFlight(s, t) && s.starts.tasks[t].phase.ExitWait?
    ensures var phase, s' := s.starts.tasks[t].phase, Step(s, ExitWaitOver(t));
            && t < |s'.starts.tasks|
            && s'.starts.tasks[t].phase
               == (if (phase.child < |s.children| && s.children[phase.child].exited) || phase.deadline <= s.clock
                   then PortRecheck else phase)
            && s' == s.(starts := s'.starts)
  {
    hide Step;
    StepIs(s, ExitWaitOver(t));
  }

  lemma CallIsGoing(s: Supervisor, svc: ServiceConfig, isRestart: bool, auto: bool)
    requires Inv(s) && svc.name !in s.starts.starting && !MayNotStart(s, svc.name)
    ensures var t := |s.starts.tasks|;
            var b := Enter(s, StartTask(svc, isRestart, Generation(s, svc.name), auto, PortCheck));
            var s' := Start(s, svc, isRestart, auto, FINE);
            t < |b.starts.tasks| && t < |s'.starts.tasks| && Going(b, s', t, true) && StillWanted(b, t)
            && b.starts.tasks[t].svc == svc && b == s.(starts := b.starts)
  {
    var t, task := |s.starts.tasks|, StartTask(svc, isRestart, Generation(s, svc.name), auto, PortCheck);
    var b, s' := Enter(s, task), Start(s, svc, isRestart, auto, FINE);
    EnterTask(s, task);
    CallBegins(s, svc, isRestart, auto, FINE);
    StartKeeps(s, svc, isRestart, auto, FINE);
    hide Inv, Start, Enter, StillWanted;
    if !svc.isApi && !svc.hasPreBuild { AddedIsUp(b, b, s', t); }
  }

  lemma CallIsAnswered(s: Supervisor, svc: ServiceConfig, isRestart: bool, auto: bool, first: bool)
    requires Inv(s) && svc.name !in s.starts.starting && !MayNotStart(s, svc.name) && (first || isRestart)
    ensures var t, s' := |s.starts.tasks|, Start(s, svc, isRestart, auto, FINE);
            t < |s'.starts.tasks| && GoodAnswers(s', t, AllWell(first))
  {
    CallBegins(s, svc, isRestart, auto, FINE);
    hide Inv, Start, OneProcessAdded;
  }

  lemma UpSinceEnter(s: Supervisor, b: Supervisor, f: Supervisor, t: TaskId, svc: ServiceConfig)
    requires t < |b.starts.tasks| && b == s.(starts := b.starts) && b.starts.tasks[t].svc == svc
    requires Fares(b, f, t, true)
    ensures ServiceUp(s, f, svc)
  {}

  /** Whoever asks, a start that may begin comes up when all is well; and a restart even if its port is not free. */
  lemma CallComesUp(s: Supervisor, svc: ServiceConfig, isRestart: bool, auto: bool, first: bool)
    requires Inv(s) && svc.name !in s.starts.starting && !MayNotStart(s, svc.name) && (first || isRestart)
    ensures var t, s' := |s.starts.tasks|, Start(s, svc, isRestart, auto, FINE);
            t < |s'.starts.tasks| && ServiceUp(s, Run(s', CarryOn(s', t, AllWell(first))), svc)
  {
    var t := |s.starts.tasks|;
    var b := Enter(s, StartTask(svc, isRestart, Generation(s, svc.name), auto, PortCheck));
    var s' := Start(s, svc, isRestart, auto, FINE);
    hide *;
    CallIsGoing(s, svc, isRestart, auto);
    CallIsAnswered(s, svc, isRestart, auto, first);
    CarriesOn(b, s', t, AllWell(first), true);
    UpSinceEnter(s, b, Run(s', CarryOn(s', t, AllWell(first))), t, svc);
  }

  /** What has come up since `b'` has come up since any earlier state that it is the same as. */
  lemma UpSince(b: Supervisor, b': Supervisor, s: Supervisor, svc: ServiceConfig)
    requires ServiceUp(b', s, svc) && b.clock <= b'.clock
    requires b'.children == b.children && b'.rows == b.rows && b'.state == b.state && b'.closing == b.closing
    ensures ServiceUp(b, s, svc)
  {}
}
