/** Safety over whole runs: shutdown, stopped processes, starts and removals. */
module SupervisionSafety {
  import opened Options
  import opened Supervision
  import opened SupervisionInvariants
  import opened SupervisionHistory

  // ---------------------------------------------------------------- shutdown

  /** Whatever lives in `f` was in the list `taken` and has been sent SIGTERM. */
  ghost predicate OnlyTakenSurvive(f: Supervisor, taken: set<ChildId>) {
    forall p: ChildId :: Alive(f, p) ==> p in taken && f.children[p].sigterm
  }

  /** Cleanup `k` took the list `taken`, and when its grace period is over whatever lives has been sent SIGKILL. */
  ghost predicate KillsWhenOver(f: Supervisor, k: nat, taken: set<ChildId>, deadline: nat) {
    && k < |f.cleanups| && f.cleanups[k].taken == taken && f.cleanups[k].deadline == deadline
    && (f.cleanups[k].killed ==> forall p: ChildId :: Alive(f, p) ==> f.children[p].sigkill)
  }

  /** Once `cleanup` has begun, no process is ever added.  Whatever lives on was in the list that
   *  `cleanup` took and has been sent SIGTERM, and SIGKILL once the grace period is over. */
  lemma ShutdownIsFinal(s0: Supervisor, before: seq<Event>, graceMs: nat, after: seq<Event>)
    requires Initial(s0)
    ensures var s := Run(s0, before);
            var f := Run(Step(s, CleanupCall(graceMs)), after);
            && f.closing && |f.children| == |s.children|
            && OnlyTakenSurvive(f, s.procs)
            && (s.procs != {} ==> KillsWhenOver(f, |s.cleanups|, s.procs, s.clock + graceMs))
  {
    var s := Run(s0, before);
    ReachableInv(s0, before);
    var c := Step(s, CleanupCall(graceMs));
    RunAges(c, after);
    CleanupSignals(s, graceMs);
    AfterCleanup(s, c, graceMs, Run(c, after));
  }

  lemma CleanupSignals(s: Supervisor, graceMs: nat)
    ensures var c := Step(s, CleanupCall(graceMs));
            && c.closing && |c.children| == |s.children|
            && (forall p: ChildId :: p < |s.children| ==>
                  && c.children[p].exited == s.children[p].exited && c.children[p].spawned == s.children[p].spawned
                  && (p in s.procs && s.children[p].spawned ==> c.children[p].sigterm))
            && (s.procs != {} ==> c.cleanups == s.cleanups + [Cleanup(s.procs, s.clock + graceMs, false)])
  {}

  lemma AfterCleanup(s: Supervisor, c: Supervisor, graceMs: nat, f: Supervisor)
    requires Inv(s) && Ages(c, f) && c.closing && |c.children| == |s.children|
    requires forall p: ChildId :: p < |s.children| ==>
               && c.children[p].exited == s.children[p].exited && c.children[p].spawned == s.children[p].spawned
               && (p in s.procs && s.children[p].spawned ==> c.children[p].sigterm)
    requires s.procs != {} ==> c.cleanups == s.cleanups + [Cleanup(s.procs, s.clock + graceMs, false)]
    ensures f.closing && |f.children| == |s.children| && OnlyTakenSurvive(f, s.procs)
    ensures s.procs != {} ==> KillsWhenOver(f, |s.cleanups|, s.procs, s.clock + graceMs)
  {
    forall p: ChildId | Alive(f, p)
      ensures p in s.procs && f.children[p].sigterm
    {
      assert ChildAged(c.children, f.children, p);
      assert ChildOk(s.rows, s.children, s.procs, p);
    }
    if s.procs != {} {
      var k := |s.cleanups|;
      assert CleanupAged(c.cleanups, f.cleanups, c.children, f.children, k);
      forall p: ChildId | f.cleanups[k].killed && Alive(f, p)
        ensures f.children[p].sigkill
      {
        assert Lives(f.children, p);
      }
    }
  }

  /** When the grace period of a cleanup is over its SIGKILL round can run, and it leaves no
   *  process of the list both alive and unkilled. */
  lemma GraceEnds(s: Supervisor, k: nat)
    requires k < |s.cleanups| && s.cleanups[k].deadline <= s.clock && !s.cleanups[k].killed
    ensures var s' := Step(s, GraceOver(k));
            && s'.cleanups[k].killed
            && forall p: ChildId :: p in s.cleanups[k].taken && Alive(s', p) ==> s'.children[p].sigkill
  {
    var s' := Step(s, GraceOver(k));
    forall p | p in s.cleanups[k].taken && Alive(s', p)
      ensures s'.children[p].sigkill
    {
      assert Alive(s, p);
    }
  }

  // ---------------------------------------------------------------- stopped processes

  /** The exit of `p` would neither count as a crash nor queue a restart, and stays that way. */
  ghost predicate Harmless(f: Supervisor, p: ChildId) {
    && p < |f.children| && !f.children[p].crashCounted && !f.children[p].requeued
    && forall cleanExit :: var g := Step(f, Close(p, cleanExit));
                           g.queue == f.queue && |g.rows| == |f.rows|
                           && forall r :: 0 <= r < |f.rows| ==> g.rows[r].crashes == f.rows[r].crashes
  }

  lemma StoppedIsHarmless(f: Supervisor, p: ChildId)
    requires Inv(f) && p < |f.children| && f.children[p].stopped
    ensures Harmless(f, p)
  {
    assert ChildOk(f.rows, f.children, f.procs, p);
  }

  /** A live process that `stop`, `forceStop` or `remove` acted on is never counted as a crash and
   *  never queues an auto-restart, whatever happens to its name before it exits. */
  lemma StoppedNeverCrashes(s0: Supervisor, before: seq<Event>, stop: Event, n: Name, after: seq<Event>)
    requires Initial(s0)
    requires stop == StopCall(n) || stop == ForceStopCall(n) || stop == RemoveCall(n)
    requires Stoppable(Run(s0, before), n)
    ensures var s := Run(s0, before);
            Harmless(Run(Step(s, stop), after), Entry(s, n).proc.value)
  {
    var s := Run(s0, before);
    var p := Entry(s, n).proc.value;
    ReachableInv(s0, before);
    var c := Step(s, stop);
    StepKeeps(s, stop);
    RunKeeps(c, after);
    RunAges(c, after);
    assert ChildAged(c.children, Run(c, after).children, p);
    StoppedIsHarmless(Run(c, after), p);
  }

  /** Whatever process a removed entry still had, running or not yet reaped, never re-enters the
   *  restarter through its exit. */
  lemma RemovedNeverRequeues(s0: Supervisor, before: seq<Event>, n: Name, after: seq<Event>)
    requires Initial(s0)
    requires Registered(Run(s0, before), n) && IsRunning(Run(s0, before), Entry(Run(s0, before), n))
    ensures var s := Run(s0, before);
            var f := Run(Step(s, RemoveCall(n)), after);
            var p := Entry(s, n).proc.value;
            p < |f.children| && !f.children[p].requeued
  {
    var s := Run(s0, before);
    var p := Entry(s, n).proc.value;
    ReachableInv(s0, before);
    assert RowOk(s.rows, s.children, s.state[n]);
    var c := Step(s, RemoveCall(n));
    if Stoppable(s, n) {
      StoppedNeverCrashes(s0, before, RemoveCall(n), n, after);
    } else {
      StepKeeps(s, RemoveCall(n));
      RunKeeps(c, after);
      RunAges(c, after);
      var f := Run(c, after);
      assert ChildAged(c.children, f.children, p);
      assert ChildOk(f.rows, f.children, f.procs, p);
    }
  }

  // ---------------------------------------------------------------- starts

  /** Starts of one name never overlap. */
  lemma OneStartPerName(s0: Supervisor, events: seq<Event>, t: TaskId, u: TaskId)
    requires Initial(s0)
    requires InFlight(Run(s0, events), t) && InFlight(Run(s0, events), u)
    requires Run(s0, events).starts.tasks[t].svc.name == Run(s0, events).starts.tasks[u].svc.name
    ensures t == u
  {
    var s := Run(s0, events);
    ReachableInv(s0, events);
    assert TaskOk(s.starts, t) && TaskOk(s.starts, u);
  }

  /** A caller who comes while a start of the name is in flight joins it: nothing else happens. */
  lemma LaterCallersJoin(s0: Supervisor, events: seq<Event>, t: TaskId, svc: ServiceConfig, isRestart: bool,
                         world: World)
    requires Initial(s0)
    requires InFlight(Run(s0, events), t) && Run(s0, events).starts.tasks[t].svc.name == svc.name
    ensures Step(Run(s0, events), StartCall(svc, isRestart, world)) == Run(s0, events)
  {
    ReachableInv(s0, events);
    assert TaskOk(Run(s0, events).starts, t);
  }

  /** No start has seen more removals than there have been. */
  lemma GenerationsBounded(s0: Supervisor, events: seq<Event>, t: TaskId)
    requires Initial(s0) && t < |Run(s0, events).starts.tasks|
    ensures var s := Run(s0, events);
            s.starts.tasks[t].generation <= Generation(s, s.starts.tasks[t].svc.name)
  {
    RunAges(s0, events);
    assert FreshTaskOk(s0.starts.tasks, Run(s0, events).starts.tasks, Run(s0, events).tallies.removals, t);
  }

  /** Removing a registered name at any await of a start wins: that start never spawns. */
  lemma RemovalWins(s0: Supervisor, before: seq<Event>, t: TaskId, after: seq<Event>)
    requires Initial(s0)
    requires InFlight(Run(s0, before), t)
    requires Registered(Run(s0, before), Run(s0, before).starts.tasks[t].svc.name)
    ensures var s := Run(s0, before);
            var f := Run(Step(s, RemoveCall(s.starts.tasks[t].svc.name)), after);
            t < |f.starts.tasks| && !DidSpawn(f.starts.tasks[t])
  {
    var s := Run(s0, before);
    var n := s.starts.tasks[t].svc.name;
    GenerationsBounded(s0, before, t);
    var c := Step(s, RemoveCall(n));
    assert c.starts.tasks == s.starts.tasks;
    RunAges(c, after);
    assert TaskAged(c.starts.tasks, Run(c, after).starts.tasks, c.tallies.removals, t);
  }

  /** A restart timer of the name survives its removal exactly when the restarter had lost track
   *  of it: it is not the one filed under the name. */
  lemma TimersSurvivingRemoval(s0: Supervisor, events: seq<Event>, n: Name, k: TimerId)
    requires Initial(s0) && Registered(Run(s0, events), n)
    ensures var s := Run(s0, events);
            TimerFor(Step(s, RemoveCall(n)), n, k)
            <==> TimerFor(s, n, k) && !(n in s.queue.pending && s.queue.pending[n] == k)
  {
    var s := Run(s0, events);
    var s1 := SignalService(s, n, false);
    assert s1.queue == s.queue;
  }

  /** How a timer gets lost: two live processes of one name crash one after the other, and the
   *  second timer is filed in the first one's place. */
  function DoubleCrash(svc: ServiceConfig): seq<Event> {
    var world := World(true, true);
    [StartCall(svc, false, world), StartCall(svc, false, world), Close(0, false), Close(1, false)]
  }

  /** The state object of a process that has just been spawned. */
  function FreshRow(s: Supervisor, svc: ServiceConfig): ProcessState {
    var p := |s.children|;
    ProcessState(svc, Some(p), Some(p), Some(p), Starting, Waiting, PreviousRestarts(s, svc.name),
                 PreviousCrashes(s, svc.name), Some(s.clock), false, None, None)
  }

  /** A web service without a pre-build is spawned in one go. */
  lemma WebStart(s: Supervisor, svc: ServiceConfig, isRestart: bool, auto: bool)
    requires !s.closing && svc.name !in s.starts.starting && !svc.isApi && !svc.hasPreBuild
    requires !(Registered(s, svc.name) && Entry(s, svc.name).remote.Some?)
    ensures var s' := Start(s, svc, isRestart, auto, World(true, true));
            && !s'.closing && s'.clock == s.clock && s'.queue == s.queue
            && s'.starts.starting == s.starts.starting
            && s'.state == s.state[svc.name := |s.rows|] && |s'.rows| == |s.rows| + 1
            && s'.rows[..|s.rows|] == s.rows && s'.rows[|s.rows|] == FreshRow(s, svc)
            && s'.requests == s.requests && s'.polls == s.polls && s'.tallies == s.tallies
            && s'.wakes == s.wakes && s'.reports == s.reports
            && s'.windows == Armed(Disarmed(s.windows, svc.name, None), svc, |s.rows|, s.clock)
            && s'.children == s.children + [Child(svc, |s.rows|, true, false, false, false, false, false, false)]
  {
    var t := |s.starts.tasks|;
    var task := StartTask(svc, isRestart, Generation(s, svc.name), auto, PortCheck);
    var s1 := Enter(s, task);
    var s2 := ClearStartupTimer(s1, svc.name, None);
    assert s2.rows == s.rows && s2.state == s.state && s2.starts.tasks[t] == task;
    assert Start(s, svc, isRestart, auto, World(true, true)) == Spawn(s2, t, true);
    var s' := Spawn(s2, t, true);
    assert s'.starts.starting == s.starts.starting;
  }

  /** The first crash of a process queues a restart. */
  lemma CrashQueues(s: Supervisor, p: ChildId)
    requires p < |s.children| && !s.children[p].exited && s.children[p].spawned && s.children[p].row < |s.rows|
    requires s.rows[s.children[p].row].restarts == 0 && !s.rows[s.children[p].row].intentionalStop
    ensures var s' := OnClose(s, p, false);
            var svc := s.children[p].svc;
            && s'.closing == s.closing && s'.clock == s.clock && s'.starts == s.starts && s'.state == s.state
            && s'.queue == Queue(s.queue.pending[svc.name := s.queue.next],
                                 s.queue.timers[s.queue.next := RestartTimer(svc, s.clock + BACKOFF_BASE_MS)],
                                     s.queue.next + 1)
            && s'.reports == s.reports && |s'.rows| == |s.rows| && |s'.children| == |s.children|
            && s'.rows[s.children[p].row].remote == s.rows[s.children[p].row].remote
            && (forall r :: 0 <= r < |s.rows| && r != s.children[p].row ==> s'.rows[r] == s.rows[r])
            && (forall q :: 0 <= q < |s.children| && q != p ==> s'.children[q] == s.children[q])
  {
    var s1 := ChildGone(s, p);
    var s2 := CountCrash(s1, p, false);
    assert s2.rows[s.children[p].row].restarts == 0 && s2.children[p].svc == s.children[p].svc;
    assert Pow2(0) == 1;
  }

  /** Two live processes of one name, the second in the registry. */
  predicate TwoLive(s: Supervisor, svc: ServiceConfig) {
    && !s.closing && s.starts.starting == map[] && s.state == map[svc.name := 1] && |s.rows| == 2 && |s.children| == 2
    && s.children[0] == Child(svc, 0, true, false, false, false, false, false, false)
    && s.children[1] == Child(svc, 1, true, false, false, false, false, false, false)
    && s.rows[0].restarts == 0 && !s.rows[0].intentionalStop && s.rows[0].remote.None?
    && s.rows[1].restarts == 0 && !s.rows[1].intentionalStop && s.rows[1].remote.None?
  }

  lemma StartTwice(s0: Supervisor, svc: ServiceConfig)
    requires Initial(s0) && !svc.isApi && !svc.hasPreBuild
    ensures var world := World(true, true);
            var s := Start(Start(s0, svc, false, false, world), svc, false, false, world);
            TwoLive(s, svc) && s.queue == s0.queue && s.clock == s0.clock
  {
    var world := World(true, true);
    hide Start;
    WebStart(s0, svc, false, false);
    var s1 := Start(s0, svc, false, false, world);
    WebStart(s1, svc, false, false);
    var s2 := Start(s1, svc, false, false, world);
    assert s2.rows[0] == s2.rows[..1][0];
    assert s1.rows[0] == s1.rows[|s0.rows|];
  }

  /** Both have crashed: two timers are armed, and only the second is filed under the name. */
  predicate TimerLost(s: Supervisor, svc: ServiceConfig, clock: nat, first: TimerId) {
    && !s.closing && s.starts.starting == map[] && |s.children| == 2 && s.clock == clock
    && s.state == map[svc.name := 1] && |s.rows| == 2 && s.rows[1].remote.None?
    && s.queue.timers == map[first := RestartTimer(svc, clock + BACKOFF_BASE_MS),
                             first + 1 := RestartTimer(svc, clock + BACKOFF_BASE_MS)]
    && s.queue.pending == map[svc.name := first + 1]
  }

  lemma CrashTwice(s: Supervisor, svc: ServiceConfig)
    requires TwoLive(s, svc) && s.queue.timers == map[] && s.queue.pending == map[]
    ensures TimerLost(OnClose(OnClose(s, 0, false), 1, false), svc, s.clock, s.queue.next)
  {
    hide OnClose;
    CrashQueues(s, 0);
    CrashQueues(OnClose(s, 0, false), 1);
  }

  lemma RunOfFour(s: Supervisor, a: Event, b: Event, c: Event, d: Event)
    ensures Run(s, [a, b, c, d]) == Step(Step(Step(Step(s, a), b), c), d)
  {
    hide Step;
    assert [a, b, c, d][1..] == [b, c, d] && [b, c, d][1..] == [c, d] && [c, d][1..] == [d] && [d][1..] == [];
    var s1 := Step(s, a);
    var s2 := Step(s1, b);
    assert Run(s, [a, b, c, d]) == Run(s1, [b, c, d]);
    assert Run(s1, [b, c, d]) == Run(s2, [c, d]);
    assert Run(s2, [c, d]) == Run(Step(s2, c), [d]);
  }

  lemma StepsOfDoubleCrash(s0: Supervisor, svc: ServiceConfig)
    ensures var world := World(true, true);
            Run(s0, DoubleCrash(svc))
            == OnClose(OnClose(Start(Start(s0, svc, false, false, world), svc, false, false, world), 0, false),
                       1, false)
  {
    hide Run, Step, Start, OnClose;
    var world := World(true, true);
    var s1 := Start(s0, svc, false, false, world);
    var s2 := Start(s1, svc, false, false, world);
    RunOfFour(s0, StartCall(svc, false, world), StartCall(svc, false, world), Close(0, false), Close(1, false));
    StepIs(s0, StartCall(svc, false, world));
    StepIs(s1, StartCall(svc, false, world));
    StepIs(s2, Close(0, false));
    StepIs(OnClose(s2, 0, false), Close(1, false));
  }

  lemma AfterDoubleCrash(s0: Supervisor, svc: ServiceConfig)
    requires Initial(s0) && !svc.isApi && !svc.hasPreBuild
    ensures TimerLost(Run(s0, DoubleCrash(svc)), svc, s0.clock, s0.queue.next)
  {
    StepsOfDoubleCrash(s0, svc);
    hide Run, DoubleCrash, Start, OnClose, TwoLive, TimerLost;
    var world := World(true, true);
    StartTwice(s0, svc);
    CrashTwice(Start(Start(s0, svc, false, false, world), svc, false, false, world), svc);
  }

  lemma RemoveLeavesTimer(s: Supervisor, n: Name, k: TimerId)
    requires Registered(s, n) && TimerFor(s, n, k) && n in s.queue.pending && s.queue.pending[n] != k
    ensures var s' := RemoveService(s, n);
            && s'.starts == s.starts && s'.clock == s.clock && s'.closing == s.closing && |s'.children| == |s.children|
            && k in s'.queue.timers && s'.queue.timers[k] == s.queue.timers[k] && s'.state == s.state - {n}
  {}

  lemma TimerStarts(s: Supervisor, ms: nat, k: TimerId, svc: ServiceConfig)
    requires k in s.queue.timers && s.queue.timers[k].svc == svc && s.queue.timers[k].due <= s.clock + ms
    ensures var s1 := s.(clock := s.clock + ms);
            var s2 := s1.(queue := s.queue.(timers := s.queue.timers - {k}, pending := s.queue.pending - {svc.name}));
            Step(Step(s, Tick(ms)), RestartTimerFires(k, World(true, true)))
            == Start(s2, svc, true, true, World(true, true))
  {
    hide Start;
  }

  /** The lost timer outlives the removal and brings the removed service back. */
  lemma LostTimerResurrects(s0: Supervisor, svc: ServiceConfig)
    requires Initial(s0) && !svc.isApi && !svc.hasPreBuild
    ensures var s := Run(s0, DoubleCrash(svc));
            var removed := Step(s, RemoveCall(svc.name));
            var f := Step(Step(removed, Tick(BACKOFF_BASE_MS)), RestartTimerFires(s0.queue.next, World(true, true)));
            && svc.name !in removed.state && svc.name in f.state && |f.children| == |s.children| + 1
  {
    AfterDoubleCrash(s0, svc);
    hide Run, Step, Start, RemoveService;
    var n, k := svc.name, s0.queue.next;
    var s := Run(s0, DoubleCrash(svc));
    StepIs(s, RemoveCall(n));
    RemoveLeavesTimer(s, n, k);
    var removed := RemoveService(s, n);
    TimerStarts(removed, BACKOFF_BASE_MS, k, svc);
    var s1 := removed.(clock := removed.clock + BACKOFF_BASE_MS);
    var s2 := s1.(queue := removed.queue.(timers := removed.queue.timers - {k},
                                          pending := removed.queue.pending - {n}));
    WebStart(s2, svc, true, true);
  }
}
