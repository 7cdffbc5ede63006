/** What the rows show: for every event, which row changes its status or health, and to what. */
module Displays {
  import opened Options
  import opened Supervision
  import opened SupervisionInvariants
  import opened StepSources
  import opened ExitOutcomes
  import opened Readiness

  // ---------------------------------------------------------------- what can happen to a row

  predicate IsRegistered(s: Supervisor, r: RowId, n: Name) {
    n in s.state && s.state[n] == r
  }

  /** The process of the row exits. */
  predicate OwnExit(s: Supervisor, e: Event, r: RowId) {
    e.Close? && e.child < |s.children| && !s.children[e.child].exited && s.children[e.child].row == r
  }

  /** It never came to life, or it failed and nobody had stopped it. */
  predicate Fails(s: Supervisor, e: Event, r: RowId)
    requires r < |s.rows|
  {
    OwnExit(s, e, r) && (!s.children[e.child].spawned || (!s.rows[r].intentionalStop && !e.cleanExit))
  }

  /** It ended by itself, or it was stopped and the row still shows it. */
  predicate Ends(s: Supervisor, e: Event, r: RowId)
    requires r < |s.rows|
  {
    && OwnExit(s, e, r) && s.children[e.child].spawned
    && if s.rows[r].intentionalStop
       then IsRegistered(s, r, s.children[e.child].svc.name) && s.rows[r].proc == Some(e.child)
            && s.rows[r].status in {Starting, Running, TimedOut}
       else e.cleanExit
  }

  /** The answer of a probe is written into the row. */
  predicate Answered(s: Supervisor, e: Event, r: RowId) {
    e.PollResult? && Polling(s, e.poll) && s.polls[e.poll].row == r && IsRegistered(s, r, s.polls[e.poll].name)
  }

  /** A service that has announced how it says it is ready is not believed by its port in its own window. */
  predicate PortMaySpeak(st: ProcessState) {
    !st.svc.hasReadyPattern || st.health.Up? || st.status.TimedOut?
  }

  /** The answer of a failing probe that completes a streak. */
  predicate Falls(s: Supervisor, e: Event, r: RowId)
    requires r < |s.rows|
  {
    Answered(s, e, r) && !e.ok && FailureCount(s, s.polls[e.poll].name) + 1 >= s.rows[r].svc.failureThreshold
  }

  /** The round of probes finds that there is no process to probe, or that the service sleeps. */
  predicate FoundIdleOrDead(s: Supervisor, e: Event, r: RowId)
    requires r < |s.rows|
  {
    && e.PollBegin? && IsRegistered(s, r, e.name) && s.rows[r].remote.None?
    && (s.rows[r].status.Idle? || !IsRunning(s, s.rows[r]))
  }

  /** A wake has ended, or a `--once` boot reports, while the row is registered. */
  predicate CalledUp(s: Supervisor, e: Event, r: RowId) {
    || (e.WakeSettles? && e.reachable && Waking(s, e.wake) && IsRegistered(s, r, s.wakes[e.wake].name))
    || (e.OnceReports? && Reporting(s, e.report) && IsRegistered(s, r, s.reports[e.report].name))
  }

  predicate WokenInVain(s: Supervisor, e: Event, r: RowId) {
    && e.WakeSettles? && !e.reachable && Waking(s, e.wake) && IsRegistered(s, r, s.wakes[e.wake].name)
    && !s.wakes[e.wake].suspended
  }

  /** What the row shows after the event. */
  function Shown(s: Supervisor, e: Event, r: RowId): (Status, Health)
    requires r < |s.rows|
  {
    var st := s.rows[r];
    if OwnReadyLine(s, e, r) && !st.health.Up? then (if st.status.Starting? then Running else st.status, Up)
    else if Fails(s, e, r) then (Crashed, Down)
    else if Ends(s, e, r) then (Stopped, Down)
    else if OwnWindowEnds(s, e, r) && IsRegistered(s, r, st.svc.name) && !st.health.Up? then (TimedOut, Down)
    else if Answered(s, e, r) && e.ok && PortMaySpeak(st) then
      if st.status.Idle? then (Idle, Asleep)
      else (if st.status.Starting? || st.status.TimedOut? then Running else st.status, Up)
    else if Falls(s, e, r) then
      (st.status, if st.status.Idle? then Asleep else if st.status.Starting? then Waiting else Down)
    else if FoundIdleOrDead(s, e, r) then (st.status, if st.status.Idle? then Asleep else Down)
    else if e.IdleStopCall? && IsRegistered(s, r, e.name) && st.remote.None? then (Idle, Asleep)
    else if CalledUp(s, e, r) then (Running, Up)
    else if WokenInVain(s, e, r) then (TimedOut, st.health)
    else if e.BootMarksRunning? && IsRegistered(s, r, e.name) then (Running, st.health)
    else if e.RemoteCommit? && e.row == r && e.svc.name == st.svc.name then (Running, Waiting)
    else if e.LocalCommit? && e.row == r && e.svc.name == st.svc.name then (Stopped, Down)
    else if e.RemoteProbe? && IsRegistered(s, r, e.name) && st.remote.Some? then
      (st.status, if e.reachable then Up else Down)
    else (st.status, st.health)
  }

  predicate Shows(s': Supervisor, r: RowId, shown: (Status, Health)) {
    r < |s'.rows| && (s'.rows[r].status, s'.rows[r].health) == shown
  }

  // ---------------------------------------------------------------- every step

  lemma LineShows(s: Supervisor, p: ChildId, matches: bool, r: RowId)
    requires Inv(s) && r < |s.rows|
    ensures Shows(OnLine(s, p, matches), r, Shown(s, Line(p, matches), r))
  {}

  lemma WindowEndShows(s: Supervisor, x: RowId, r: RowId)
    requires Inv(s) && r < |s.rows|
    ensures Shows(OnStartupTimer(s, x), r, Shown(s, StartupTimerFires(x), r))
  {}

  lemma ExitShows(s: Supervisor, p: ChildId, cleanExit: bool, r: RowId)
    requires Inv(s) && r < |s.rows|
    ensures Shows(OnClose(s, p, cleanExit), r, Shown(s, Close(p, cleanExit), r))
  {
    if CanExit(s, p) {
      ExitReads(s, p, cleanExit);
      hide OnClose, Inv, RestartQueued, NothingMoreQueued;
    } else if p < |s.children| {
      assert ChildOk(s.rows, s.children, s.procs, p);
    }
  }

  lemma RoundShows(s: Supervisor, n: Name, r: RowId)
    requires Inv(s) && r < |s.rows|
    ensures Shows(OnPollBegin(s, n), r, Shown(s, PollBegin(n), r))
  {}

  lemma AnswerShows(s: Supervisor, k: nat, ok: bool, r: RowId)
    requires Inv(s) && r < |s.rows|
    ensures Shows(OnPollResult(s, k, ok), r, Shown(s, PollResult(k, ok), r))
  {
    if Polling(s, k) { assert PollOk(s.rows, s.polls, k); }
    hide CountProbe, FailureCount, Inv;
  }

  lemma SignalShows(s: Supervisor, n: Name, kill: bool)
    ensures ShowsSame(s, SignalService(s, n, kill)) && SignalService(s, n, kill).state == s.state
  {}

  lemma CancelShows(s: Supervisor, n: Name)
    ensures ShowsSame(s, CancelRestart(s, n)) && CancelRestart(s, n).state == s.state
  {}

  lemma StopShows(s: Supervisor, n: Name)
    ensures ShowsSame(s, StopService(s, n)) && StopService(s, n).state == s.state
    ensures |StopService(s, n).rows| == |s.rows|
  {
    CancelShows(s, n);
    SignalShows(CancelRestart(s, n), n, false);
    hide SignalService, ShowsSame;
    SameThen(s, CancelRestart(s, n), StopService(s, n));
    assert |StopService(s, n).rows| == |s.rows| by { SignalRows(CancelRestart(s, n), n); }
  }

  lemma SignalRows(s: Supervisor, n: Name)
    ensures |SignalService(s, n, false).rows| == |s.rows|
  {}

  lemma SameThen(a: Supervisor, b: Supervisor, c: Supervisor)
    requires ShowsSame(a, b) && ShowsSame(b, c)
    ensures ShowsSame(a, c)
  {}

  lemma RemovalShows(s: Supervisor, n: Name)
    ensures ShowsSame(s, RemoveService(s, n))
  {
    var s1 := SignalService(s, n, false);
    var s2 := s1.(state := s.state - {n},
                  tallies := Tallies(s.tallies.removals[n := Generation(s, n) + 1], s.tallies.failures - {n}));
    SignalShows(s, n, false);
    CancelShows(s2, n);
    assert Registered(s, n) ==> RemoveService(s, n) == CancelRestart(s2, n);
    hide SignalService, CancelRestart, Generation;
  }

  lemma RestartShows(s: Supervisor, n: Name)
    ensures ShowsSame(s, OnRestartService(s, n))
  {
    StopShows(s, n);
    hide StopService;
  }

  lemma ShutdownShows(s: Supervisor, graceMs: nat, k: nat)
    ensures ShowsSame(s, OnCleanup(s, graceMs)) && ShowsSame(s, OnGraceOver(s, k))
  {
    var s1 := CancelAll(s.(closing := true));
    assert ShowsSame(s, s1);
    assert ShowsSame(s1, SignalAll(s1, graceMs)) by { hide CancelAll; }
    SameThen(s, s1, SignalAll(s1, graceMs));
    hide CancelAll, SignalAll;
  }

  lemma IdleShows(s: Supervisor, n: Name, r: RowId)
    requires r < |s.rows|
    ensures Shows(OnIdleStop(s, n), r, Shown(s, IdleStopCall(n), r))
  {
    StopShows(s, n);
    hide StopService;
  }

  lemma WakeShows(s: Supervisor, w: nat, reachable: bool, r: RowId)
    requires r < |s.rows|
    ensures Shows(OnWakeSettles(s, w, reachable), r, Shown(s, WakeSettles(w, reachable), r))
  {}

  lemma ReportShows(s: Supervisor, k: nat, r: RowId)
    requires r < |s.rows|
    ensures Shows(OnOnceReports(s, k), r, Shown(s, OnceReports(k), r))
  {}

  lemma QuietPromisesShow(s: Supervisor, svc: ServiceConfig, reachable: bool)
    ensures ShowsSame(s, OnWakeBegin(s, svc)) && ShowsSame(s, OnOnceSettles(s, svc, reachable))
  {
    CancelShows(s, svc.name);
    hide MeetsBar, CancelRestart;
  }

  lemma GivingUpShows(s: Supervisor, w: nat)
    ensures ShowsSame(s, OnWakeGivesUp(s, w))
  {}

  lemma RemoteCommitShows(s: Supervisor, x: RowId, svc: ServiceConfig, env: string, r: RowId)
    requires r < |s.rows|
    ensures Shows(OnRemoteCommit(s, x, svc, env), r, Shown(s, RemoteCommit(x, svc, env), r))
  {}

  lemma LocalCommitShows(s: Supervisor, x: RowId, svc: ServiceConfig, r: RowId)
    requires r < |s.rows|
    ensures Shows(OnLocalCommit(s, x, svc), r, Shown(s, LocalCommit(x, svc), r))
  {}

  lemma RemoteProbeShows(s: Supervisor, n: Name, reachable: bool, r: RowId)
    requires r < |s.rows|
    ensures Shows(OnRemoteProbe(s, n, reachable), r, Shown(s, RemoteProbe(n, reachable), r))
  {}

  lemma BootShows(s: Supervisor, n: Name, r: RowId)
    requires r < |s.rows|
    ensures Shows(OnBootMarksRunning(s, n), r, Shown(s, BootMarksRunning(n), r))
  {}

  /** Events that write no status and no health. */
  predicate ShowsNothing(e: Event) {
    || e.Tick? || e.StartCall? || e.PortResult? || e.ExitWaitOver? || e.BuildResult? || e.RestartTimerFires?
    || e.StopCall? || e.ForceStopCall? || e.CancelCall? || e.RemoveCall? || e.StartServiceCall? || e.DrainOver?
    || e.InstallDone? || e.RestartServiceCall? || e.RestartResume? || e.CleanupCall? || e.GraceOver?
    || e.ForgetHealthCall? || e.RegisterLazyCall? || e.WakeBegin? || e.WakeGivesUp? || e.RegisterRemoteCall?
    || e.OnceSettles?
  }

  lemma NothingIsShown(s: Supervisor, e: Event, r: RowId)
    requires ShowsNothing(e) && r < |s.rows|
    ensures Shown(s, e, r) == (s.rows[r].status, s.rows[r].health)
  {}

  lemma ClockShows(s: Supervisor, ms: nat, n: Name)
    ensures ShowsSame(s, OnTick(s, ms)) && ShowsSame(s, OnForgetHealth(s, n))
  {}

  lemma EventsShowingNothing(e: Event)
    requires ShowsNothing(e)
    requires !e.Tick? && !e.ForgetHealthCall? && !e.StopCall? && !e.ForceStopCall? && !e.RemoveCall?
    requires !e.RestartServiceCall? && !e.CleanupCall? && !e.GraceOver? && !e.WakeBegin? && !e.WakeGivesUp?
    requires !e.OnceSettles?
    ensures || e.StartCall? || e.PortResult? || e.ExitWaitOver? || e.BuildResult? || e.RestartTimerFires?
            || e.InstallDone? || e.RestartResume? || e.CancelCall? || e.StartServiceCall? || e.DrainOver?
            || e.RegisterLazyCall? || e.RegisterRemoteCall?
  {}

  lemma SilentStepShows(s: Supervisor, e: Event)
    requires ShowsNothing(e)
    ensures ShowsSame(s, Step(s, e))
  {
    hide *;
    StepIs(s, e);
    if e.Tick? { ClockShows(s, e.ms, ""); }
    else if e.ForgetHealthCall? { ClockShows(s, 0, e.name); }
    else if e.StopCall? { StopShows(s, e.name); }
    else if e.ForceStopCall? { SignalShows(s, e.name, true); }
    else if e.RemoveCall? { RemovalShows(s, e.name); }
    else if e.RestartServiceCall? { RestartShows(s, e.name); }
    else if e.CleanupCall? { ShutdownShows(s, e.graceMs, 0); }
    else if e.GraceOver? { ShutdownShows(s, 0, e.cleanup); }
    else if e.WakeBegin? { QuietPromisesShow(s, e.svc, true); }
    else if e.WakeGivesUp? { GivingUpShows(s, e.wake); }
    else if e.OnceSettles? { QuietPromisesShow(s, e.svc, e.reachable); }
    else { EventsShowingNothing(e); SilentStepsKeep(s, e); }
  }

  lemma SameShows(s: Supervisor, s': Supervisor, r: RowId)
    requires ShowsSame(s, s') && r < |s.rows|
    ensures Shows(s', r, (s.rows[r].status, s.rows[r].health))
  {}

  lemma OthersShow(e: Event)
    requires !ShowsNothing(e)
    ensures || e.Line? || e.Close? || e.StartupTimerFires? || e.PollBegin? || e.PollResult? || e.BootMarksRunning?
            || e.IdleStopCall? || e.WakeSettles? || e.RemoteCommit? || e.LocalCommit? || e.RemoteProbe?
            || e.OnceReports?
  {}

  /** After any step every row shows what the table above says: each change of status or health has its event,
   *  each such event has its change, and no other row is touched. */
  lemma StepShows(s: Supervisor, e: Event, r: RowId)
    requires Inv(s) && r < |s.rows|
    ensures Shows(Step(s, e), r, Shown(s, e, r))
  {
    hide *;
    StepIs(s, e);
    if ShowsNothing(e) {
      NothingIsShown(s, e, r);
      SilentStepShows(s, e);
      SameShows(s, Step(s, e), r);
    } else {
      OthersShow(e);
      if e.Line? { LineShows(s, e.child, e.matches, r); }
      else if e.Close? { ExitShows(s, e.child, e.cleanExit, r); }
      else if e.StartupTimerFires? { WindowEndShows(s, e.row, r); }
      else if e.PollBegin? { RoundShows(s, e.name, r); }
      else if e.PollResult? { AnswerShows(s, e.poll, e.ok, r); }
      else if e.BootMarksRunning? { BootShows(s, e.name, r); }
      else if e.IdleStopCall? { IdleShows(s, e.name, r); }
      else if e.WakeSettles? { WakeShows(s, e.wake, e.reachable, r); }
      else if e.OnceReports? { ReportShows(s, e.report, r); }
      else if e.RemoteCommit? { RemoteCommitShows(s, e.row, e.svc, e.env, r); }
      else if e.LocalCommit? { LocalCommitShows(s, e.row, e.svc, r); }
      else { RemoteProbeShows(s, e.name, e.reachable, r); }
    }
  }
}
