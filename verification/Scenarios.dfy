/** Runs from a fresh start that show what the exact conditions shut out. */
module Scenarios {
  import opened Options
  import opened Supervision
  import opened SupervisionInvariants
  import opened SupervisionSafety
  import opened RestartAdvertising
  import opened Readiness
  import opened ProbeStreaks
  import opened AfterSwitch
  import opened Switching
  import opened SwitchSafety

  // ---------------------------------------------------------------- a cancel under an auto-restart in flight

  /** The start of an API waits for its port check. */
  lemma ApiStart(s: Supervisor, svc: ServiceConfig, auto: bool)
    requires !s.closing && svc.name !in s.starts.starting && svc.isApi
    requires Registered(s, svc.name) ==> Entry(s, svc.name).remote.None?
    ensures Start(s, svc, false, auto, FINE)
              == Enter(s, StartTask(svc, false, Generation(s, svc.name), auto, PortCheck))
    ensures Start(s, svc, true, auto, FINE) == Enter(s, StartTask(svc, true, Generation(s, svc.name), auto, PortCheck))
  {}

  /** The port is free and the process is spawned. */
  lemma PortSpawns(s: Supervisor, t: TaskId)
    requires t < |s.starts.tasks| && s.starts.tasks[t].phase.PortCheck? && !s.closing
    requires !s.starts.tasks[t].svc.hasPreBuild
             && Generation(s, s.starts.tasks[t].svc.name) == s.starts.tasks[t].generation
    ensures var s' := OnPortResult(s, t, true, FINE);
            var svc := s.starts.tasks[t].svc;
            && s'.children == s.children + [Child(svc, |s.rows|, true, false, false, false, false, false, false)]
            && |s'.rows| == |s.rows| + 1 && s'.state == s.state[svc.name := |s.rows|]
            && s'.starts.starting == s.starts.starting - {svc.name} && |s'.starts.tasks| == |s.starts.tasks|
            && s'.queue == s.queue && s'.clock == s.clock && !s'.closing && s'.tallies == s.tallies
            && (!s.starts.tasks[t].auto ==> s'.rows[|s.rows|] == FreshRow(s, svc))
  {
    var s1 := ClearStartupTimer(s, s.starts.tasks[t].svc.name, None);
    assert s1.starts == s.starts && s1.rows == s.rows && s1.state == s.state && s1.children == s.children;
    assert OnPortResult(s, t, true, FINE) == Spawn(s1, t, true);
    var s' := Spawn(s1, t, true);
    assert s'.rows[|s.rows|].svc == s.starts.tasks[t].svc;
  }

  function SpawnedApi(s0: Supervisor, svc: ServiceConfig): Supervisor {
    var started := Step(s0, StartCall(svc, false, FINE));
    Step(started, PortResult(0, true, FINE))
  }

  /** Started, spawned, crashed, and started again by the timer: an auto-restart is in flight. */
  function RestartInFlight(s0: Supervisor, svc: ServiceConfig): Supervisor {
    var crashed := Step(SpawnedApi(s0, svc), Close(0, false));
    var waited := Step(crashed, Tick(BACKOFF_BASE_MS));
    Step(waited, RestartTimerFires(s0.queue.next, FINE))
  }

  lemma ApiIsSpawned(s0: Supervisor, svc: ServiceConfig)
    requires Initial(s0) && svc.isApi && !svc.hasPreBuild
    ensures var s := SpawnedApi(s0, svc);
            && s.children == [Child(svc, 0, true, false, false, false, false, false, false)]
            && s.rows == [FreshRow(s0, svc)] && s.state == map[svc.name := 0] && s.tallies == s0.tallies
            && s.starts.starting == map[] && |s.starts.tasks| == 1 && s.queue == s0.queue && s.clock == s0.clock
            && !s.closing
  {
    var s1 := Step(s0, StartCall(svc, false, FINE));
    hide Step, Start, OnPortResult;
    StepIs(s0, StartCall(svc, false, FINE));
    StepIs(s1, PortResult(0, true, FINE));
    ApiStart(s0, svc, false);
    PortSpawns(s1, 0);
  }

  lemma RestartIsInFlight(s0: Supervisor, svc: ServiceConfig)
    requires Initial(s0) && svc.isApi && !svc.hasPreBuild
    ensures var s, n := RestartInFlight(s0, svc), svc.name;
            && !s.closing && Registered(s, n) && Entry(s, n).status.Crashed? && !Entry(s, n).health.Up?
            && |s.children| == 1 && |s.starts.tasks| == 2 && n in s.starts.starting && s.starts.starting[n] == 1
            && s.starts.tasks[1] == StartTask(svc, true, Generation(s, n), true, PortCheck)
  {
    var n := svc.name;
    var s2 := SpawnedApi(s0, svc);
    var s3 := Step(s2, Close(0, false));
    var s4 := Step(s3, Tick(BACKOFF_BASE_MS));
    StepIs(s3, Tick(BACKOFF_BASE_MS));
    StepIs(s4, RestartTimerFires(s0.queue.next, FINE));
    ApiHasCrashed(s0, svc);
    hide Step, Start, SpawnedApi;
    ApiStart(s4.(queue := s4.queue.(timers := s4.queue.timers - {s0.queue.next}, pending := s4.queue.pending - {n})),
             svc, true);
  }

  lemma ApiHasCrashed(s0: Supervisor, svc: ServiceConfig)
    requires Initial(s0) && svc.isApi && !svc.hasPreBuild
    ensures var s := Step(SpawnedApi(s0, svc), Close(0, false));
            && |s.children| == 1 && |s.rows| == 1 && s.state == map[svc.name := 0] && s.tallies == s0.tallies
            && s.rows[0].status.Crashed? && !s.rows[0].health.Up? && s.rows[0].remote.None?
            && s.starts.starting == map[] && |s.starts.tasks| == 1 && !s.closing
            && s0.queue.next in s.queue.timers
            && s.queue.timers[s0.queue.next] == RestartTimer(svc, s.clock + BACKOFF_BASE_MS)
  {
    var s2 := SpawnedApi(s0, svc);
    StepIs(s2, Close(0, false));
    ApiIsSpawned(s0, svc);
    hide Step, OnClose, SpawnedApi;
    CrashQueues(s2, 0);
    CrashShows(s2, 0);
  }

  lemma CrashShows(s: Supervisor, p: ChildId)
    requires p < |s.children| && !s.children[p].exited && s.children[p].spawned && s.children[p].row < |s.rows|
    requires !s.rows[s.children[p].row].intentionalStop
    ensures var s' := OnClose(s, p, false);
            && s.children[p].row < |s'.rows| && s'.tallies == s.tallies
            && s'.rows[s.children[p].row].status.Crashed? && s'.rows[s.children[p].row].health.Down?
  {
    var s1 := ChildGone(s, p);
    assert s1.tallies == s.tallies;
    hide ChildGone, Pow2;
  }

  /** A cancel at that moment makes the row read failed, and still the restart spawns it. */
  lemma CancelledRestartStillSpawns(s0: Supervisor, svc: ServiceConfig, requireUp: bool)
    requires Initial(s0) && svc.isApi && !svc.hasPreBuild
    ensures var c := Step(RestartInFlight(s0, svc), CancelCall(svc.name));
            && Registered(c, svc.name) && Classify(SnapshotOf(c, svc.name), requireUp).Failed?
            && !NothingQueued(c, svc.name)
            && |Step(c, PortResult(1, true, FINE)).children| == |c.children| + 1
  {
    var s, n := RestartInFlight(s0, svc), svc.name;
    RestartIsInFlight(s0, svc);
    hide RestartInFlight, Step, Initial;
    StepIs(s, CancelCall(n));
    var c := CancelRestart(s, n);
    assert c.starts == s.starts && c.closing == s.closing && c.tallies == s.tallies;
    StepIs(c, PortResult(1, true, FINE));
    PortSpawns(c, 1);
  }

  // ---------------------------------------------------------------- a respawn under an old streak

  /** A web service comes up by its own word and fails one probe. */
  function FailedOnce(s0: Supervisor, svc: ServiceConfig): Supervisor {
    var started := Step(s0, StartCall(svc, false, FINE));
    var up := Step(started, Line(0, true));
    var probed := Step(up, PollBegin(svc.name));
    Step(probed, PollResult(0, false))
  }

  /** Then it crashes and is respawned by its timer. */
  function Respawned(s0: Supervisor, svc: ServiceConfig): Supervisor {
    var crashed := Step(FailedOnce(s0, svc), Close(0, false));
    var waited := Step(crashed, Tick(BACKOFF_BASE_MS));
    Step(waited, RestartTimerFires(s0.queue.next, FINE))
  }

  /** Spawned, up by its own word, and failed once. */
  lemma FailsOnce(s: Supervisor, svc: ServiceConfig)
    requires s.state == map[svc.name := 0] && |s.rows| == 1 && s.polls == [] && svc.startPeriodMs == 0
    requires s.children == [Child(svc, 0, true, false, false, false, false, false, false)]
    requires s.rows[0].svc == svc && s.rows[0].proc == Some(0) && s.rows[0].remote.None? && s.rows[0].restarts == 0
    requires s.rows[0].status.Starting? && !s.rows[0].health.Up? && !s.rows[0].intentionalStop && svc.hasReadyPattern
    ensures var s' := OnPollResult(OnPollBegin(OnLine(s, 0, true), svc.name), 0, false);
            && s'.state == s.state && |s'.rows| == 1 && s'.children == s.children
            && s'.rows[0].restarts == 0 && !s'.rows[0].intentionalStop && s'.rows[0].remote.None?
            && FailureCount(s', svc.name) == FailureCount(s, svc.name) + 1
            && s'.starts == s.starts && s'.queue == s.queue && s'.closing == s.closing && s'.clock == s.clock
  {}

  lemma TimerSpawnsAgain(s: Supervisor, svc: ServiceConfig, k: TimerId)
    requires !svc.isApi && !svc.hasPreBuild && !s.closing && svc.name !in s.starts.starting
    requires Registered(s, svc.name) && Entry(s, svc.name).remote.None?
    requires RestartTimerDue(s, k) && s.queue.timers[k].svc == svc
    ensures var s' := OnRestartTimer(s, k, FINE);
            var r := |s.rows|;
            && JustSpawned(s', r) && s'.rows[r].svc == svc && s'.tallies == s.tallies && s'.reports == s.reports
  {
    var s1 := s.(queue := s.queue.(timers := s.queue.timers - {k}, pending := s.queue.pending - {svc.name}));
    WebStart(s1, svc, true, true);
    assert OnRestartTimer(s, k, FINE) == Start(s1, svc, true, true, FINE);
    hide Start;
  }

  lemma HasFailedOnce(s0: Supervisor, svc: ServiceConfig)
    requires Initial(s0) && !svc.isApi && !svc.hasPreBuild && svc.hasReadyPattern && svc.startPeriodMs == 0
    ensures var s := FailedOnce(s0, svc);
            && Inv(s) && s.state == map[svc.name := 0] && |s.rows| == 1
            && s.children == [Child(svc, 0, true, false, false, false, false, false, false)]
            && s.rows[0].restarts == 0 && !s.rows[0].intentionalStop && s.rows[0].remote.None?
            && FailureCount(s, svc.name) == 1
            && s.starts.starting == map[] && s.queue == s0.queue && !s.closing && s.clock == s0.clock
  {
    var n := svc.name;
    var s1 := Step(s0, StartCall(svc, false, FINE));
    var s2 := Step(s1, Line(0, true));
    var s3 := Step(s2, PollBegin(n));
    assert Inv(s0);
    hide Step, Start, OnLine, OnPollBegin, OnPollResult, Inv, Armed, Disarmed;
    StepIs(s0, StartCall(svc, false, FINE));
    StepIs(s1, Line(0, true));
    StepIs(s2, PollBegin(n));
    StepIs(s3, PollResult(0, false));
    StepKeeps(s0, StartCall(svc, false, FINE));
    StepKeeps(s1, Line(0, true));
    StepKeeps(s2, PollBegin(n));
    StepKeeps(s3, PollResult(0, false));
    WebStart(s0, svc, false, false);
    FailsOnce(s1, svc);
  }

  /** A respawned process goes down early on the failures of its predecessor. */
  lemma RespawnInheritsStreak(s0: Supervisor, svc: ServiceConfig, lazy: bool)
    requires Initial(s0) && !svc.isApi && !svc.hasPreBuild && svc.hasReadyPattern && svc.startPeriodMs == 0
    requires svc.failureThreshold > 1
    ensures var s := Respawned(s0, svc);
            && Inv(s) && JustSpawned(s, 1) && s.rows[1].svc == svc
            && FailureCount(s, svc.name) == 1 && !FallsByItsOwn(s, 1, lazy)
  {
    RespawnedCounted(s0, svc);
    hide *;
    FallsOnOthers(Respawned(s0, svc), 1, lazy);
  }

  lemma RespawnedCounted(s0: Supervisor, svc: ServiceConfig)
    requires Initial(s0) && !svc.isApi && !svc.hasPreBuild && svc.hasReadyPattern && svc.startPeriodMs == 0
    ensures var s := Respawned(s0, svc);
            Inv(s) && JustSpawned(s, 1) && s.rows[1].svc == svc && FailureCount(s, svc.name) == 1
  {
    var s4 := FailedOnce(s0, svc);
    var s5 := Step(s4, Close(0, false));
    var s6 := Step(s5, Tick(BACKOFF_BASE_MS));
    hide Initial, FailedOnce, Step, OnClose, OnRestartTimer, Inv, JustSpawned;
    HasFailedOnce(s0, svc);
    StepIs(s4, Close(0, false));
    StepIs(s5, Tick(BACKOFF_BASE_MS));
    StepIs(s6, RestartTimerFires(s0.queue.next, FINE));
    StepKeeps(s4, Close(0, false));
    StepKeeps(s5, Tick(BACKOFF_BASE_MS));
    StepKeeps(s6, RestartTimerFires(s0.queue.next, FINE));
    CrashQueues(s4, 0);
    CrashShows(s4, 0);
    TimerSpawnsAgain(s6, svc, s0.queue.next);
  }

  // ---------------------------------------------------------------- a report on the word of a predecessor

  /** A web has announced itself and been found ready, then crashes and is respawned. */
  function FoundReady(s0: Supervisor, svc: ServiceConfig): Supervisor {
    var started := Step(s0, StartCall(svc, false, FINE));
    var up := Step(started, Line(0, true));
    Step(up, OnceSettles(svc, false))
  }

  function RespawnedSince(s0: Supervisor, svc: ServiceConfig): Supervisor {
    var crashed := Step(FoundReady(s0, svc), Close(0, false));
    var waited := Step(crashed, Tick(BACKOFF_BASE_MS));
    Step(waited, RestartTimerFires(s0.queue.next, FINE))
  }

  lemma SettlesReady(s: Supervisor, svc: ServiceConfig)
    requires s.state == map[svc.name := 0] && |s.rows| == 1 && s.reports == []
    requires s.children == [Child(svc, 0, true, false, false, false, false, false, false)]
    requires s.rows[0].svc == svc && s.rows[0].remote.None? && s.rows[0].restarts == 0
    requires !s.rows[0].health.Up? && !s.rows[0].intentionalStop && svc.hasReadyPattern
    ensures var s' := OnOnceSettles(OnLine(s, 0, true), svc, false);
            && s'.state == s.state && |s'.rows| == 1 && s'.children == s.children
            && s'.rows[0].restarts == 0 && !s'.rows[0].intentionalStop && s'.rows[0].remote.None?
            && s'.reports == [Report(svc.name, Some(0), true)]
            && s'.starts == s.starts && s'.queue == s.queue && s'.closing == s.closing && s'.clock == s.clock
  {}

  lemma WasFoundReady(s0: Supervisor, svc: ServiceConfig)
    requires Initial(s0) && !svc.isApi && !svc.hasPreBuild && svc.hasReadyPattern
    ensures var s := FoundReady(s0, svc);
            && s.state == map[svc.name := 0] && |s.rows| == 1
            && s.children == [Child(svc, 0, true, false, false, false, false, false, false)]
            && s.rows[0].restarts == 0 && !s.rows[0].intentionalStop && s.rows[0].remote.None?
            && s.reports == [Report(svc.name, Some(0), true)]
            && s.starts.starting == map[] && s.queue == s0.queue && !s.closing && s.clock == s0.clock
  {
    var s1 := Step(s0, StartCall(svc, false, FINE));
    var s2 := Step(s1, Line(0, true));
    assert FoundReady(s0, svc) == Step(s2, OnceSettles(svc, false)) by { hide Step; }
    hide *;
    WebIsStarted(s0, svc);
    StepIs(s1, Line(0, true));
    StepIs(s2, OnceSettles(svc, false));
    SettlesReady(s1, svc);
  }

  lemma WebIsStarted(s0: Supervisor, svc: ServiceConfig)
    requires Initial(s0) && !svc.isApi && !svc.hasPreBuild
    ensures var s := Step(s0, StartCall(svc, false, FINE));
            && s.state == map[svc.name := 0] && |s.rows| == 1 && s.reports == []
            && s.children == [Child(svc, 0, true, false, false, false, false, false, false)]
            && s.rows[0].svc == svc && s.rows[0].remote.None? && s.rows[0].restarts == 0
            && !s.rows[0].health.Up? && !s.rows[0].intentionalStop
            && s.starts.starting == map[] && s.queue == s0.queue && !s.closing && s.clock == s0.clock
  {
    hide Step, Start, Armed, Disarmed;
    StepIs(s0, StartCall(svc, false, FINE));
    WebStart(s0, svc, false, false);
    assert Step(s0, StartCall(svc, false, FINE)).rows == [FreshRow(s0, svc)];
  }

  lemma RespawnedUnheard(s0: Supervisor, svc: ServiceConfig)
    requires Initial(s0) && !svc.isApi && !svc.hasPreBuild && svc.hasReadyPattern
    ensures var s := RespawnedSince(s0, svc);
            JustSpawned(s, 1) && s.rows[1].svc == svc && s.reports == [Report(svc.name, Some(0), true)]
  {
    WasFoundReady(s0, svc);
    var s4 := FoundReady(s0, svc);
    var s5 := Step(s4, Close(0, false));
    var s6 := Step(s5, Tick(BACKOFF_BASE_MS));
    hide Initial, FoundReady, Step, OnClose, OnRestartTimer, JustSpawned;
    StepIs(s4, Close(0, false));
    StepIs(s5, Tick(BACKOFF_BASE_MS));
    StepIs(s6, RestartTimerFires(s0.queue.next, FINE));
    CrashQueues(s4, 0);
    TimerSpawnsAgain(s6, svc, s0.queue.next);
  }

  lemma ReportIsOfAnother(s: Supervisor, n: Name, r: RowId)
    requires s.reports == [Report(n, Some(0), true)] && n in s.state && s.state[n] == r && 0 < r < |s.rows|
    ensures SaidOfAnother(s, [OnceReports(0)], r) && IsUp(OnOnceReports(s, 0), r)
  {}

  /** A `--once` boot calls a web up whose new process has said nothing, in that process's own window:
   *  what it found was said by the process that has crashed since. */
  lemma ReportedOnPredecessorsWord(s0: Supervisor, svc: ServiceConfig)
    requires Initial(s0) && !svc.isApi && !svc.hasPreBuild && svc.hasReadyPattern
    ensures var s := RespawnedSince(s0, svc);
            && JustSpawned(s, 1) && Silent(s, 1) && SaidOfAnother(s, [OnceReports(0)], 1)
            && IsUp(Step(s, OnceReports(0)), 1)
  {
    RespawnedUnheard(s0, svc);
    var s := RespawnedSince(s0, svc);
    hide *;
    SpawnedIsSilent(s, svc, 1);
    ReportIsOfAnother(s, svc.name, 1);
    StepIs(s, OnceReports(0));
  }

  lemma SpawnedIsSilent(s: Supervisor, svc: ServiceConfig, r: RowId)
    requires JustSpawned(s, r) && s.rows[r].svc == svc && !svc.isApi && svc.hasReadyPattern
    ensures Silent(s, r) && svc.name in s.state && s.state[svc.name] == r && r < |s.rows|
  {}

  // ---------------------------------------------------------------- what outlives a switch

  /** The stack while the first switch waits, and when it has been told that the port is free. */
  predicate AboutToSwitch(k: Stack, svc: ServiceConfig, env: string, cleared: bool) {
    && |k.switches| == 1 && k.switches[0].name == svc.name && k.switches[0].svc == svc && k.switches[0].row == 0
    && k.switches[0].goal == ToRemote(env)
    && (if cleared then k.switches[0].phase.Cleared? else k.switches[0].phase.Polling?)
    && |k.sup.rows| > 0 && k.sup.rows[0].svc.name == svc.name && k.sup.state == map[svc.name := 0]
    && k.proxies == Proxies(map[], map[]) && k.sockets.bound == {} && svc.port !in k.sockets.foreign
  }

  /** What a call leaves of the service that it stops. */
  predicate LeftBehind(s: Supervisor, s': Supervisor) {
    && s'.windows == s.windows && s'.polls == s.polls && s'.wakes == s.wakes && s'.tallies == s.tallies
    && s'.clock == s.clock && |s'.rows| == |s.rows| == 1 && |s'.children| == |s.children|
    && s'.rows[0].svc == s.rows[0].svc && s'.rows[0].owned == s.rows[0].owned
    && ((IsRunning(s, s.rows[0]) && s.rows[0].pid.Some?) ==> s'.rows[0].intentionalStop)
    && forall p :: 0 <= p < |s.children| ==>
         && s'.children[p].svc == s.children[p].svc && s'.children[p].spawned == s.children[p].spawned
         && s'.children[p].exited == s.children[p].exited
  }

  lemma StopLeavesBehind(s: Supervisor, n: Name)
    requires s.state == map[n := 0] && |s.rows| == 1
    ensures var s' := StopService(CancelRestart(s, n), n);
            LeftBehind(s, s') && s'.state == s.state && s'.rows[0].svc == s.rows[0].svc
  {}

  lemma CallLeaves(config: SwitchConfig, k: Stack, svc: ServiceConfig, env: string)
    requires svc.name in config.services && config.services[svc.name] == svc
    requires env in config.targets && svc.name in config.targets[env]
    requires k.switches == [] && k.proxies.lazy - {svc.name} == map[] && k.proxies.remote == map[]
    requires k.sockets.bound == {} && svc.port !in k.sockets.foreign
    requires k.sup.state == map[svc.name := 0] && |k.sup.rows| == 1 && k.sup.rows[0].remote.None?
    requires k.sup.rows[0].svc.name == svc.name
    ensures var k1 := StackStep(config, k, CallSwitch(svc.name, ToRemote(env)));
            AboutToSwitch(k1, svc, env, false) && LeftBehind(k.sup, k1.sup)
  {
    StopLeavesBehind(k.sup, svc.name);
    hide CancelRestart, StopService;
  }

  lemma AnswerClears(config: SwitchConfig, k: Stack, svc: ServiceConfig, env: string)
    requires AboutToSwitch(k, svc, env, false)
    ensures var k1 := StackStep(config, k, AnswerPort(0, true)); AboutToSwitch(k1, svc, env, true) && k1.sup == k.sup
  {}

  lemma CommitServes(config: SwitchConfig, k: Stack, svc: ServiceConfig, env: string)
    requires AboutToSwitch(k, svc, env, true)
    ensures var s := StackStep(config, k, CommitSwitch(0)).sup;
            && JustSwitched(s, 0) && s == k.sup.(rows := s.rows) && |s.rows| == |k.sup.rows|
            && s.rows[0].svc == svc && s.rows[0].owned == k.sup.rows[0].owned
            && s.rows[0].intentionalStop == k.sup.rows[0].intentionalStop
  {}

  lemma FewEvents(config: SwitchConfig, k: Stack, a: StackEvent, b: StackEvent, rest: seq<StackEvent>, n: Name)
    requires Configured(config, n)
    ensures var k2 := StackStep(config, StackStep(config, k, a), b);
            && StackRun(config, k, [a, b] + rest) == StackRun(config, k2, rest)
            && ((Orderly(config, k, a, n) && Orderly(config, StackStep(config, k, a), b, n)
                 && OrderlyRun(config, k2, rest, n)) ==> OrderlyRun(config, k, [a, b] + rest, n))
  {
    hide StackStep, Orderly;
    var all := [a, b] + rest;
    assert all[1..] == [b] + rest && ([b] + rest)[1..] == rest;
    var k1 := StackStep(config, k, a);
    assert StackRun(config, k, all) == StackRun(config, k1, [b] + rest);
    if Orderly(config, k1, b, n) && OrderlyRun(config, StackStep(config, k1, b), rest, n) {
      assert OrderlyRun(config, k1, [b] + rest, n);
    }
  }

  /** The run of a switch from where nothing of the service is in flight. */
  function SwitchRun(n: Name, env: string): seq<StackEvent> {
    [CallSwitch(n, ToRemote(env)), AnswerPort(0, true)]
  }

  /** The call, the port found free and the commit: what was begun before is still there. */
  lemma SwitchLeaves(config: SwitchConfig, k: Stack, svc: ServiceConfig, env: string)
    requires svc.name in config.services && config.services[svc.name] == svc
    requires env in config.targets && svc.name in config.targets[env]
    requires k.switches == [] && k.proxies.lazy - {svc.name} == map[] && k.proxies.remote == map[]
    requires k.sockets.bound == {} && svc.port !in k.sockets.foreign
    requires k.sup.state == map[svc.name := 0] && |k.sup.rows| == 1 && k.sup.rows[0].remote.None?
    requires k.sup.rows[0].svc.name == svc.name && svc.name !in k.sup.starts.starting && k.sup.requests == []
    ensures var w := StackRun(config, k, SwitchRun(svc.name, env));
            var s := StackStep(config, w, CommitSwitch(0)).sup;
            && OrderlyRun(config, k, SwitchRun(svc.name, env), svc.name) && IsCleared(w, 0)
            && JustSwitched(s, 0) && LeftBehind(k.sup, s.(rows := s.rows[0 := s.rows[0].(svc := k.sup.rows[0].svc)]))
            && s.rows[0].svc == svc
  {
    var b, c := CallSwitch(svc.name, ToRemote(env)), AnswerPort(0, true);
    var k1 := StackStep(config, k, b);
    var k2 := StackStep(config, k1, c);
    hide StackStep;
    assert Orderly(config, k, b, svc.name) && Orderly(config, k1, c, svc.name);
    assert [b, c] + [] == SwitchRun(svc.name, env) && StackRun(config, k2, []) == k2;
    hide Orderly, SwitchRun, StackRun;
    CallLeaves(config, k, svc, env);
    AnswerClears(config, k1, svc, env);
    CommitServes(config, k2, svc, env);
    FewEvents(config, k, b, c, [], svc.name);
  }

  /** A service that is started, or registered behind an on-demand proxy, is then switched. */
  lemma RunThenSwitch(config: SwitchConfig, k: Stack, a: StackEvent, b: StackEvent, svc: ServiceConfig, env: string)
    requires Configured(config, svc.name)
    requires Orderly(config, k, a, svc.name) && Orderly(config, StackStep(config, k, a), b, svc.name)
    requires var k2 := StackStep(config, StackStep(config, k, a), b);
             OrderlyRun(config, k2, SwitchRun(svc.name, env), svc.name)
    ensures var events := [a, b] + SwitchRun(svc.name, env);
            && OrderlyRun(config, k, events, svc.name)
            && StackRun(config, k, events)
               == StackRun(config, StackStep(config, StackStep(config, k, a), b), SwitchRun(svc.name, env))
  {
    hide StackStep, Orderly, SwitchRun;
    FewEvents(config, k, a, b, SwitchRun(svc.name, env), svc.name);
  }

  // ---------------------------------------------------------------- a startup timer, a probe, a wake

  /** A web is started and its first round of probes is due. */
  function StartedAndProbed(svc: ServiceConfig): seq<StackEvent> {
    [Supervise(StartCall(svc, false, FINE)), Supervise(PollBegin(svc.name))]
  }

  predicate ProbedOnce(k: Stack, svc: ServiceConfig) {
    && k.switches == [] && k.proxies == Proxies(map[], map[]) && k.sockets.bound == {}
    && k.sup.state == map[svc.name := 0] && |k.sup.rows| == 1 && k.sup.rows[0].remote.None?
    && k.sup.rows[0].svc == svc && svc.name !in k.sup.starts.starting && k.sup.requests == []
    && k.sup.rows[0].owned == Some(0) && IsRunning(k.sup, k.sup.rows[0]) && k.sup.rows[0].pid.Some?
    && k.sup.children == [Child(svc, 0, true, false, false, false, false, false, false)]
    && k.sup.polls == [Poll(svc.name, 0, true)] && k.sup.wakes == []
    && (0 in k.sup.windows.due <==> HasStartupWindow(svc))
  }

  lemma ProbeBegins(s: Supervisor, svc: ServiceConfig)
    requires s.state == map[svc.name := 0] && |s.rows| == 1 && IsRunning(s, s.rows[0]) && s.rows[0].remote.None?
    requires s.rows[0].svc == svc && svc.startPeriodMs == 0 && s.rows[0].status.Starting? && s.polls == []
    ensures OnPollBegin(s, svc.name) == s.(polls := [Poll(svc.name, 0, true)])
  {}

  lemma StartsAndIsProbed(config: SwitchConfig, k0: Stack, svc: ServiceConfig)
    requires AtRest(k0) && !svc.isApi && !svc.hasPreBuild && svc.startPeriodMs == 0
    ensures var k1 := StackStep(config, k0, Supervise(StartCall(svc, false, FINE)));
            var k2 := StackStep(config, k1, Supervise(PollBegin(svc.name)));
            ProbedOnce(k2, svc) && k2.sockets.foreign == k0.sockets.foreign && k1.switches == []
  {
    var s1 := Step(k0.sup, StartCall(svc, false, FINE));
    StepIs(k0.sup, StartCall(svc, false, FINE));
    StepIs(s1, PollBegin(svc.name));
    WebStart(k0.sup, svc, false, false);
    assert s1.rows == [FreshRow(k0.sup, svc)];
    ProbeBegins(s1, svc);
    hide Step, Start, OnPollBegin, Armed, Disarmed;
    StartsWindow(k0.sup, svc);
  }

  lemma StartsWindow(s: Supervisor, svc: ServiceConfig)
    requires Initial(s)
    ensures 0 in Armed(Disarmed(s.windows, svc.name, None), svc, 0, s.clock).due <==> HasStartupWindow(svc)
  {}

  lemma BothAreOrderly(config: SwitchConfig, k0: Stack, k1: Stack, svc: ServiceConfig)
    requires AtRest(k0) && k1.switches == [] && svc.name in config.services && config.services[svc.name] == svc
    ensures Orderly(config, k0, Supervise(StartCall(svc, false, FINE)), svc.name)
    ensures Orderly(config, k1, Supervise(PollBegin(svc.name)), svc.name)
  {}

  /** The stack at the commit of such a switch. */
  lemma SwitchedWhileProbed(config: SwitchConfig, k0: Stack, svc: ServiceConfig, env: string)
    requires AtRest(k0) && !svc.isApi && !svc.hasPreBuild && svc.startPeriodMs == 0 && svc.port !in k0.sockets.foreign
    requires svc.name in config.services && config.services[svc.name] == svc
    requires env in config.targets && svc.name in config.targets[env]
    ensures var events := StartedAndProbed(svc) + SwitchRun(svc.name, env);
            var k := StackRun(config, k0, events);
            var s := StackStep(config, k, CommitSwitch(0)).sup;
            && OrderlyRun(config, k0, events, svc.name) && IsCleared(k, 0) && k.switches[0].name == svc.name
            && k.switches[0].goal == ToRemote(env) && k.switches[0].row == 0
            && JustSwitched(s, 0) && s.rows[0].svc == svc && s.polls == [Poll(svc.name, 0, true)]
            && (forall w :: !IsWakeOf(s, w, svc.name)) && (0 in s.windows.due <==> HasStartupWindow(svc))
            && (!svc.hasReadyPattern ==> ProcessSpent(s, 0))
  {
    var a, b := Supervise(StartCall(svc, false, FINE)), Supervise(PollBegin(svc.name));
    var k1 := StackStep(config, k0, a);
    var k2 := StackStep(config, k1, b);
    StartsAndIsProbed(config, k0, svc);
    BothAreOrderly(config, k0, k1, svc);
    SwitchLeaves(config, k2, svc, env);
    SwitchedTo(config, k2, svc, env);
    hide StackStep, Orderly, OrderlyRun, StackRun, SwitchRun;
    RunThenSwitch(config, k0, a, b, svc, env);
  }

  lemma SwitchedTo(config: SwitchConfig, k: Stack, svc: ServiceConfig, env: string)
    requires svc.name in config.services && config.services[svc.name] == svc
    requires env in config.targets && svc.name in config.targets[env]
    requires k.switches == [] && k.proxies.lazy - {svc.name} == map[] && k.proxies.remote == map[]
    requires k.sockets.bound == {} && svc.port !in k.sockets.foreign
    requires k.sup.state == map[svc.name := 0] && |k.sup.rows| == 1 && k.sup.rows[0].remote.None?
    requires k.sup.rows[0].svc.name == svc.name
    ensures var w := StackRun(config, k, SwitchRun(svc.name, env));
            |w.switches| == 1 && w.switches[0].name == svc.name && w.switches[0].goal == ToRemote(env)
            && w.switches[0].row == 0
  {
    var b, c := CallSwitch(svc.name, ToRemote(env)), AnswerPort(0, true);
    var k1 := StackStep(config, k, b);
    CallLeaves(config, k, svc, env);
    AnswerClears(config, k1, svc, env);
    assert [b, c] + [] == SwitchRun(svc.name, env);
    FewEvents(config, k, b, c, [], svc.name);
    hide StackStep;
  }

  /** After the switch its startup timer still goes off, and writes over the row of the environment. */
  lemma StartupTimerDisturbsRemote(config: SwitchConfig, k0: Stack, svc: ServiceConfig, env: string)
    requires AtRest(k0) && !svc.isApi && !svc.hasPreBuild && svc.startPeriodMs == 0 && svc.port !in k0.sockets.foreign
    requires svc.name in config.services && config.services[svc.name] == svc && HasStartupWindow(svc)
    requires env in config.targets && svc.name in config.targets[env]
    ensures var events := StartedAndProbed(svc) + SwitchRun(svc.name, env);
            var k := StackRun(config, k0, events);
            var s := StackStep(config, k, CommitSwitch(0)).sup;
            && OrderlyRun(config, k0, events, svc.name) && IsCleared(k, 0) && JustSwitched(s, 0) && 0 in s.windows.due
            && var f := Run(s, WindowEnds(s, 0));
               Disturbs(s, WindowEnds(s, 0), 0) && 0 < |f.rows| && f.rows[0].status.TimedOut? && !QuietForGood(s, 0)
  {
    SwitchedWhileProbed(config, k0, svc, env);
    var k := StackRun(config, k0, StartedAndProbed(svc) + SwitchRun(svc.name, env));
    var s := StackStep(config, k, CommitSwitch(0)).sup;
    hide StackStep, StackRun, OrderlyRun, StartedAndProbed, SwitchRun, JustSwitched, WindowEnds, LateEvents;
    WindowDisturbs(s, 0);
  }

  /** With the old process spent and no startup timer: the answer of a probe begun before the switch still
   *  calls the row of the environment up, though nobody has reached the environment. */
  lemma ProbeAnswerDisturbsRemote(config: SwitchConfig, k0: Stack, svc: ServiceConfig, env: string)
    requires AtRest(k0) && !svc.isApi && !svc.hasPreBuild && svc.startPeriodMs == 0 && svc.port !in k0.sockets.foreign
    requires svc.name in config.services && config.services[svc.name] == svc
    requires !HasStartupWindow(svc) && !svc.hasReadyPattern
    requires env in config.targets && svc.name in config.targets[env]
    ensures var events := StartedAndProbed(svc) + SwitchRun(svc.name, env);
            var k := StackRun(config, k0, events);
            var s := StackStep(config, k, CommitSwitch(0)).sup;
            && OrderlyRun(config, k0, events, svc.name) && IsCleared(k, 0) && JustSwitched(s, 0)
            && ProcessSpent(s, 0) && 0 !in s.windows.due && (forall w :: !IsWakeOf(s, w, svc.name))
            && IsUp(Step(s, PollResult(0, true)), 0) && Disturbs(s, [PollResult(0, true)], 0) && !QuietForGood(s, 0)
  {
    SwitchedWhileProbed(config, k0, svc, env);
    var k := StackRun(config, k0, StartedAndProbed(svc) + SwitchRun(svc.name, env));
    var s := StackStep(config, k, CommitSwitch(0)).sup;
    hide StackStep, StackRun, OrderlyRun, StartedAndProbed, SwitchRun;
    AnswerBringsUp(s);
    OneDisturbs(s, PollResult(0, true), 0);
    assert Disturbs(s, [PollResult(0, true)], 0);
  }

  lemma AnswerBringsUp(s: Supervisor)
    requires JustSwitched(s, 0) && !s.rows[0].svc.hasReadyPattern && s.polls == [Poll(s.rows[0].svc.name, 0, true)]
    ensures LateEvent(s, PollResult(0, true), 0) && IsUp(Step(s, PollResult(0, true)), 0)
  {
    hide Step;
    StepIs(s, PollResult(0, true));
  }

  /** A service behind its on-demand proxy is being woken. */
  function LazyAndWoken(svc: ServiceConfig): seq<StackEvent> {
    [BootLazy(svc.name), Supervise(WakeBegin(svc.(port := svc.port + LAZY_PORT_OFFSET)))]
  }

  predicate BeingWoken(k: Stack, svc: ServiceConfig) {
    && k.switches == [] && k.proxies == Proxies(map[svc.name := svc.port], map[]) && k.sockets.bound == {}
    && k.sup.state == map[svc.name := 0] && |k.sup.rows| == 1 && k.sup.rows[0].remote.None?
    && k.sup.rows[0].svc.name == svc.name && svc.name !in k.sup.starts.starting && k.sup.requests == []
    && k.sup.wakes == [Wake(svc.name, svc.suspended, true)]
  }

  lemma IsBeingWoken(config: SwitchConfig, k0: Stack, svc: ServiceConfig)
    requires AtRest(k0) && svc.name in config.services && config.services[svc.name] == svc
    ensures var k1 := StackStep(config, k0, BootLazy(svc.name));
            var k2 := StackStep(config, k1, Supervise(WakeBegin(svc.(port := svc.port + LAZY_PORT_OFFSET))));
            && BeingWoken(k2, svc) && k2.sockets.foreign == k0.sockets.foreign
            && Orderly(config, k0, BootLazy(svc.name), svc.name)
            && Orderly(config, k1, Supervise(WakeBegin(svc.(port := svc.port + LAZY_PORT_OFFSET))), svc.name)
  {
    var k1 := StackStep(config, k0, BootLazy(svc.name));
    var e := WakeBegin(svc.(port := svc.port + LAZY_PORT_OFFSET));
    assert Orderly(config, k0, BootLazy(svc.name), svc.name) by { hide StackStep; }
    assert Orderly(config, k1, Supervise(e), svc.name) by { hide StackStep; }
    hide Step, Orderly;
    StepIs(k1.sup, e);
  }

  lemma WakeTimesOut(s: Supervisor, n: Name)
    requires JustSwitched(s, 0) && s.rows[0].svc.name == n && s.wakes == [Wake(n, false, true)]
    ensures LateEvent(s, WakeSettles(0, false), 0)
    ensures var f := Step(s, WakeSettles(0, false)); 0 < |f.rows| && f.rows[0].status.TimedOut?
  {
    hide Step;
    StepIs(s, WakeSettles(0, false));
  }

  /** A service is switched while it is being woken: the end of the wake times the environment out. */
  lemma WakeDisturbsRemote(config: SwitchConfig, k0: Stack, svc: ServiceConfig, env: string)
    requires AtRest(k0) && svc.name in config.services && config.services[svc.name] == svc && !svc.suspended
    requires svc.port !in k0.sockets.foreign && env in config.targets && svc.name in config.targets[env]
    ensures var events := LazyAndWoken(svc) + SwitchRun(svc.name, env);
            var k := StackRun(config, k0, events);
            var s := StackStep(config, k, CommitSwitch(0)).sup;
            && OrderlyRun(config, k0, events, svc.name) && IsCleared(k, 0) && JustSwitched(s, 0)
            && var f := Step(s, WakeSettles(0, false));
               0 < |f.rows| && f.rows[0].status.TimedOut? && Disturbs(s, [WakeSettles(0, false)], 0)
               && !QuietForGood(s, 0)
  {
    var a, b := BootLazy(svc.name), Supervise(WakeBegin(svc.(port := svc.port + LAZY_PORT_OFFSET)));
    var k2 := StackStep(config, StackStep(config, k0, a), b);
    IsBeingWoken(config, k0, svc);
    assert LazyAndWoken(svc) == [a, b] && Configured(config, svc.name);
    hide *;
    SwitchedWhileWoken(config, k2, svc, env);
    RunThenSwitch(config, k0, a, b, svc, env);
  }

  lemma SwitchedWhileWoken(config: SwitchConfig, k: Stack, svc: ServiceConfig, env: string)
    requires BeingWoken(k, svc) && svc.name in config.services && config.services[svc.name] == svc && !svc.suspended
    requires svc.port !in k.sockets.foreign && env in config.targets && svc.name in config.targets[env]
    ensures var w := StackRun(config, k, SwitchRun(svc.name, env));
            var s := StackStep(config, w, CommitSwitch(0)).sup;
            && OrderlyRun(config, k, SwitchRun(svc.name, env), svc.name) && IsCleared(w, 0) && JustSwitched(s, 0)
            && var f := Step(s, WakeSettles(0, false));
               0 < |f.rows| && f.rows[0].status.TimedOut? && Disturbs(s, [WakeSettles(0, false)], 0)
               && !QuietForGood(s, 0)
  {
    assert k.proxies.lazy - {svc.name} == map[];
    SwitchLeaves(config, k, svc, env);
    var s := StackStep(config, StackRun(config, k, SwitchRun(svc.name, env)), CommitSwitch(0)).sup;
    hide StackStep, OrderlyRun, StackRun, SwitchRun, Step, LateEvents, Run;
    WakeTimesOut(s, svc.name);
    OneDisturbs(s, WakeSettles(0, false), 0);
    assert LateEvents(s, [WakeSettles(0, false)], 0);
  }
}
