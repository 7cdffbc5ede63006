/** Whose failures a service goes down on.
 *
 *  The health poller counts failures per name and never forgets them when a process is replaced, so a
 *  new process may go down on failures that were not its own. */
module ProbeStreaks {
  import opened Options
  import opened Supervision
  import opened SupervisionInvariants
  import opened SupervisionHistory
  import opened Readiness
  import opened Provenance

  /** A probe of the state object is answered, and the answer is written down. */
  predicate OwnAnswer(s: Supervisor, e: Event, r: RowId) {
    e.PollResult? && Polling(s, e.poll) && s.polls[e.poll].row == r && StillProbed(s, e.poll)
  }

  /** The failures of the state object's own probes in a row, after one more event. */
  function OwnFailures(s: Supervisor, e: Event, r: RowId, count: nat): nat {
    if OwnAnswer(s, e, r) then (if e.ok then 0 else count + 1) else count
  }

  function OwnStreak(s: Supervisor, events: seq<Event>, r: RowId, count: nat): nat
    decreases |events|
  {
    if events == [] then count else OwnStreak(Step(s, events[0]), events[1..], r, OwnFailures(s, events[0], r, count))
  }

  /** A failing answer to probe `k` takes the local state object from up. */
  predicate TakenDown(s: Supervisor, k: nat, r: RowId) {
    && Polling(s, k) && s.polls[k].row == r
    && IsUp(s, r) && s.rows[r].remote.None? && !s.rows[r].status.Idle? && !IsUp(Step(s, PollResult(k, false)), r)
  }

  /** What can happen while services are polled: a `--once` boot does not poll, and only a service behind
   *  an on-demand proxy is woken. */
  predicate Polled(e: Event, n: Name, lazy: bool) {
    !e.OnceReports? && (e.WakeBegin? && e.svc.name == n ==> lazy)
  }

  predicate AllPolled(events: seq<Event>, n: Name, lazy: bool) {
    forall e :: e in events ==> Polled(e, n, lazy)
  }

  /** However it goes on, as long as its configuration is the one it was spawned with, the state object
   *  is taken from up only after `failureThreshold` failures in a row of its own probes. */
  ghost predicate FallsByItsOwn(s: Supervisor, r: RowId, lazy: bool)
    requires r < |s.rows|
  {
    forall events, k ::
      var f := Run(s, events);
      AllPolled(events, s.rows[r].svc.name, lazy) && TakenDown(f, k, r) && f.rows[r].svc == s.rows[r].svc ==>
        OwnStreak(s, events, r, 0) + 1 >= s.rows[r].svc.failureThreshold
  }

  /** A process that was just spawned, the registered one of its name. */
  predicate JustSpawned(s: Supervisor, r: RowId) {
    && r < |s.rows|
    && var st := s.rows[r];
       && st.svc.name in s.state && s.state[st.svc.name] == r && st.remote.None? && st.status.Starting?
       && !st.health.Up? && st.owned.Some? && st.proc == st.owned && IsRunning(s, st)
       && s.children[st.proc.value].svc == st.svc
  }

  // ---------------------------------------------------------------- with a fresh count

  /** One step of the name's count, against the streak of its registered state object. */
  lemma CountStep(s: Supervisor, e: Event, n: Name, r: RowId, count: nat)
    requires Inv(s) && r < |s.rows| && s.rows[r].svc.name == n
    requires n in s.state && s.state[n] == r ==> FailureCount(s, n) <= count
    ensures var s' := Step(s, e);
            n in s'.state && s'.state[n] == r ==> FailureCount(s', n) <= OwnFailures(s, e, r, count)
  {
    StepComesFrom(s, e, n);
    assert EntryFrom(s, Step(s, e), n, Sources(s, e, n));
    if e.PollResult? {
      StepIs(s, e);
      if Polling(s, e.poll) { assert PollOk(s.rows, s.polls, e.poll); }
    } else if e.RemoveCall? {
      StepIs(s, e);
    } else {
      FailuresMove(s, e);
      hide Step, Inv, Sources;
    }
  }

  lemma RowNameKept(s: Supervisor, e: Event, r: RowId)
    requires Inv(s) && r < |s.rows|
    ensures r < |Step(s, e).rows| && Step(s, e).rows[r].svc.name == s.rows[r].svc.name
  {
    var n := s.rows[r].svc.name;
    StepComesFrom(s, e, n);
    hide Step, Inv, Sources;
    assert RowFrom(s, Step(s, e), n, Sources(s, e, n), r);
  }

  lemma {:induction false} RunCountsOwn(s: Supervisor, events: seq<Event>, n: Name, r: RowId, count: nat)
    requires Inv(s) && r < |s.rows| && s.rows[r].svc.name == n
    requires n in s.state && s.state[n] == r ==> FailureCount(s, n) <= count
    ensures var f := Run(s, events);
            && Inv(f) && r < |f.rows| && f.rows[r].svc.name == n
            && (n in f.state && f.state[n] == r ==> FailureCount(f, n) <= OwnStreak(s, events, r, count))
    decreases |events|
  {
    if events != [] {
      hide Inv, Step, OwnFailures, FailureCount;
      StepKeeps(s, events[0]);
      RowNameKept(s, events[0], r);
      CountStep(s, events[0], n, r, count);
      RunCountsOwn(Step(s, events[0]), events[1..], n, r, OwnFailures(s, events[0], r, count));
    }
  }

  lemma DownNeedsCount(s: Supervisor, k: nat, r: RowId)
    requires Inv(s) && TakenDown(s, k, r)
    ensures StillProbed(s, k) && s.polls[k].name == s.rows[r].svc.name
    ensures FailureCount(s, s.polls[k].name) + 1 >= s.rows[r].svc.failureThreshold
  {
    assert PollOk(s.rows, s.polls, k);
    ProbeThatTakesItDown(s, k, false, r);
  }

  lemma FreshCountFallsByItsOwn(s: Supervisor, r: RowId, lazy: bool)
    requires Inv(s) && r < |s.rows|
    requires FailureCount(s, s.rows[r].svc.name) == 0
    ensures FallsByItsOwn(s, r, lazy)
  {
    var n := s.rows[r].svc.name;
    hide Inv, Step, Run;
    forall events, k | TakenDown(Run(s, events), k, r) && Run(s, events).rows[r].svc == s.rows[r].svc
      ensures OwnStreak(s, events, r, 0) + 1 >= s.rows[r].svc.failureThreshold
    {
      RunCountsOwn(s, events, n, r, 0);
      DownNeedsCount(Run(s, events), k, r);
    }
  }

  // ---------------------------------------------------------------- up by a probe only

  /** Up, and served by its process. */
  predicate UpHere(s: Supervisor, r: RowId) {
    IsUp(s, r) && s.rows[r].remote.None?
  }

  /** What can bring a state object up. */
  predicate GoesUp(s: Supervisor, e: Event, r: RowId)
    requires r < |s.rows|
  {
    || OwnReadyLine(s, e, r) || OnceSays(s, e, r)
    || (e.PollResult? && e.ok && OwnAnswer(s, e, r))
    || (e.WakeSettles? && IsWakeOf(s, e.wake, s.rows[r].svc.name))
  }

  predicate RisesOnlyBy(s: Supervisor, e: Event, s': Supervisor, r: RowId)
    requires r < |s.rows|
  {
    r < |s'.rows| && (UpHere(s', r) && !UpHere(s, r) ==> GoesUp(s, e, r))
  }

  lemma OutputRises(s: Supervisor, p: ChildId, matches: bool, x: RowId, r: RowId)
    requires r < |s.rows|
    ensures RisesOnlyBy(s, Line(p, matches), OnLine(s, p, matches), r)
    ensures RisesOnlyBy(s, StartupTimerFires(x), OnStartupTimer(s, x), r)
  {}

  lemma CloseRises(s: Supervisor, p: ChildId, cleanExit: bool, r: RowId)
    requires r < |s.rows|
    ensures RisesOnlyBy(s, Close(p, cleanExit), OnClose(s, p, cleanExit), r)
  {
    if p < |s.children| && !s.children[p].exited && s.children[p].row < |s.rows| {
      Readiness.CloseWrites(s, p, cleanExit);
      hide OnClose;
    }
  }

  lemma AnswerRises(s: Supervisor, k: nat, ok: bool, r: RowId)
    requires r < |s.rows|
    ensures RisesOnlyBy(s, PollResult(k, ok), OnPollResult(s, k, ok), r)
  {}

  lemma RemovalRises(s: Supervisor, n: Name, r: RowId)
    requires r < |s.rows|
    ensures RisesOnlyBy(s, RemoveCall(n), RemoveService(s, n), r)
  {}

  lemma CommitRises(s: Supervisor, x: RowId, svc: ServiceConfig, env: string, r: RowId)
    requires r < |s.rows|
    ensures RisesOnlyBy(s, RemoteCommit(x, svc, env), OnRemoteCommit(s, x, svc, env), r)
    ensures RisesOnlyBy(s, LocalCommit(x, svc), OnLocalCommit(s, x, svc), r)
  {}

  lemma OutsideRises(s: Supervisor, n: Name, reachable: bool, ms: nat, r: RowId)
    requires r < |s.rows|
    ensures RisesOnlyBy(s, RemoteProbe(n, reachable), OnRemoteProbe(s, n, reachable), r)
    ensures RisesOnlyBy(s, Tick(ms), OnTick(s, ms), r)
    ensures RisesOnlyBy(s, ForgetHealthCall(n), OnForgetHealth(s, n), r)
  {}

  lemma WakeRises(s: Supervisor, svc: ServiceConfig, w: nat, reachable: bool, r: RowId)
    requires Inv(s) && r < |s.rows|
    ensures RisesOnlyBy(s, WakeBegin(svc), OnWakeBegin(s, svc), r)
    ensures RisesOnlyBy(s, WakeSettles(w, reachable), OnWakeSettles(s, w, reachable), r)
    ensures RisesOnlyBy(s, WakeGivesUp(w), OnWakeGivesUp(s, w), r)
  {
    if Waking(s, w) {
      assert StateOk(s.rows, s.state, s.wakes[w].name);
      AwakeWrites(OnWakeGivesUp(s, w), s.wakes[w].name, reachable, s.wakes[w].suspended);
    }
    hide Awake, Inv;
  }

  lemma ReportRises(s: Supervisor, svc: ServiceConfig, reachable: bool, k: nat, r: RowId)
    requires r < |s.rows|
    ensures RisesOnlyBy(s, OnceSettles(svc, reachable), OnOnceSettles(s, svc, reachable), r)
    ensures RisesOnlyBy(s, OnceReports(k), OnOnceReports(s, k), r)
  {
    hide MeetsBar;
  }

  lemma LeavingRises(s: Supervisor, e: Event, s': Supervisor, r: RowId)
    requires r < |s.rows| && LeavesReadiness(s, s')
    ensures RisesOnlyBy(s, e, s', r)
  {
    assert RowKept(s, s', r);
  }

  lemma StepRises(s: Supervisor, e: Event, r: RowId)
    requires Inv(s) && r < |s.rows|
    ensures RisesOnlyBy(s, e, Step(s, e), r)
  {
    hide *;
    PromiseEvents(e);
    StepIs(s, e);
    if e.StartCall? || e.PortResult? || e.ExitWaitOver? || e.BuildResult? || e.RestartTimerFires?
        || e.InstallDone? || e.RestartResume? {
      StartStepsMove(s, e, r);
      LeavingRises(s, e, Step(s, e), r);
    } else if e.RemoteCommit? { CommitRises(s, e.row, e.svc, e.env, r); }
    else if e.LocalCommit? { CommitRises(s, e.row, e.svc, "", r); }
    else if e.RemoteProbe? { OutsideRises(s, e.name, e.reachable, 0, r); }
    else if e.Tick? { OutsideRises(s, "", true, e.ms, r); }
    else if e.ForgetHealthCall? { OutsideRises(s, e.name, true, 0, r); }
    else if e.Line? { OutputRises(s, e.child, e.matches, 0, r); }
    else if e.StartupTimerFires? { OutputRises(s, 0, true, e.row, r); }
    else if e.Close? { CloseRises(s, e.child, e.cleanExit, r); }
    else if e.PollResult? { AnswerRises(s, e.poll, e.ok, r); }
    else if e.RemoveCall? { RemovalRises(s, e.name, r); }
    else if e.WakeBegin? { WakeRises(s, e.svc, 0, true, r); }
    else if e.WakeSettles? { WakeRises(s, s.rows[r].svc, e.wake, e.reachable, r); }
    else if e.WakeGivesUp? { WakeRises(s, s.rows[r].svc, e.wake, true, r); }
    else if e.OnceSettles? { ReportRises(s, e.svc, e.reachable, 0, r); }
    else if e.OnceReports? { ReportRises(s, s.rows[r].svc, true, e.report, r); }
    else {
      QuietStepsMove(s, e);
      LeavingRises(s, e, Step(s, e), r);
    }
  }

  ghost predicate NoWakeOf(s: Supervisor, n: Name) {
    forall w :: !IsWakeOf(s, w, n)
  }

  /** An open wake afterwards was open before, or has just begun. */
  ghost predicate WakesGoOn(s: Supervisor, e: Event, s': Supervisor) {
    forall w: nat :: w < |s'.wakes| && s'.wakes[w].open ==>
      if w < |s.wakes| then s'.wakes[w] == s.wakes[w] else e.WakeBegin? && s'.wakes[w].name == e.svc.name
  }

  lemma BeginGoesOn(s: Supervisor, svc: ServiceConfig)
    ensures WakesGoOn(s, WakeBegin(svc), OnWakeBegin(s, svc))
  {
    WritesPassPromises(s, s.wakes, s.reports, svc.name, true, true);
    hide CancelRestart;
  }

  lemma EndGoesOn(s: Supervisor, w: nat, reachable: bool)
    ensures WakesGoOn(s, WakeSettles(w, reachable), OnWakeSettles(s, w, reachable))
    ensures WakesGoOn(s, WakeGivesUp(w), OnWakeGivesUp(s, w))
  {
    hide Awake;
    if Waking(s, w) { AwakeWrites(OnWakeGivesUp(s, w), s.wakes[w].name, reachable, s.wakes[w].suspended); }
  }

  lemma ReportsLeaveWakes(s: Supervisor, e: Event)
    requires e.OnceSettles? || e.OnceReports?
    ensures WakesGoOn(s, e, Step(s, e))
  {
    hide Step, Written;
    ReportsAre(s, e);
  }

  lemma PromisesWakeNone(s: Supervisor, e: Event, n: Name)
    requires Promises(e) && NoWakeOf(s, n) && !(e.WakeBegin? && e.svc.name == n)
    ensures NoWakeOf(Step(s, e), n)
  {
    hide Step;
    StepIs(s, e);
    var s' := Step(s, e);
    hide OnWakeBegin, OnWakeSettles, OnWakeGivesUp, OnOnceSettles, OnOnceReports;
    if e.WakeBegin? { BeginGoesOn(s, e.svc); }
    else if e.WakeSettles? { EndGoesOn(s, e.wake, e.reachable); }
    else if e.WakeGivesUp? { EndGoesOn(s, e.wake, true); }
    else { ReportsLeaveWakes(s, e); }
    forall w ensures !IsWakeOf(s', w, n) { assert !IsWakeOf(s, w, n); }
  }

  lemma StaysUnwoken(s: Supervisor, e: Event, n: Name)
    requires Inv(s) && NoWakeOf(s, n) && !(e.WakeBegin? && e.svc.name == n)
    ensures NoWakeOf(Step(s, e), n)
  {
    hide Step, Inv;
    if Promises(e) { PromisesWakeNone(s, e, n); }
    else {
      PromisesStay(s, e);
      forall w ensures !IsWakeOf(Step(s, e), w, n) { assert !IsWakeOf(s, w, n); }
    }
  }

  /** The process of the state object has no ready pattern, and nobody wakes the service. */
  ghost predicate UpByProbeOnly(s: Supervisor, n: Name, r: RowId, p: ChildId) {
    && r < |s.rows| && s.rows[r].svc.name == n && NoWakeOf(s, n)
    && p < |s.children| && s.children[p].row == r && !s.children[p].svc.hasReadyPattern
  }

  lemma OwnLineIsSilent(s: Supervisor, e: Event, n: Name, r: RowId, p: ChildId)
    requires Inv(s) && UpByProbeOnly(s, n, r, p)
    ensures !OwnReadyLine(s, e, r)
  {
    assert ChildOk(s.rows, s.children, s.procs, p);
    assert e.Line? ==> ChildOk(s.rows, s.children, s.procs, e.child);
  }

  lemma StaysUpByProbeOnly(s: Supervisor, e: Event, n: Name, r: RowId, p: ChildId)
    requires Inv(s) && UpByProbeOnly(s, n, r, p) && Polled(e, n, false)
    ensures UpByProbeOnly(Step(s, e), n, r, p)
  {
    hide Step, Inv;
    RowNameKept(s, e, r);
    StaysUnwoken(s, e, n);
    StepAges(s, e);
    assert ChildAged(s.children, Step(s, e).children, p);
  }

  lemma AnswerClearsCount(s: Supervisor, e: Event, n: Name, r: RowId)
    requires Inv(s) && r < |s.rows| && s.rows[r].svc.name == n && OwnAnswer(s, e, r) && e.ok
    ensures FailureCount(Step(s, e), n) == 0
  {
    assert PollOk(s.rows, s.polls, e.poll);
    hide Step;
    StepIs(s, e);
  }

  lemma RegisteredBefore(s: Supervisor, e: Event, n: Name, r: RowId)
    requires Inv(s) && r < |s.rows| && n in Step(s, e).state && Step(s, e).state[n] == r
    ensures n in s.state && s.state[n] == r
  {
    StepComesFrom(s, e, n);
    hide Step, Inv, Sources;
    assert EntryFrom(s, Step(s, e), n, Sources(s, e, n));
  }

  /** While it is up no failure is counted but its own. */
  lemma UpCountStep(s: Supervisor, e: Event, n: Name, r: RowId, p: ChildId, count: nat)
    requires Inv(s) && UpByProbeOnly(s, n, r, p) && Polled(e, n, false)
    requires UpHere(s, r) && n in s.state && s.state[n] == r ==> FailureCount(s, n) <= count
    ensures var s' := Step(s, e);
            UpHere(s', r) && n in s'.state && s'.state[n] == r ==> FailureCount(s', n) <= OwnFailures(s, e, r, count)
  {
    var s' := Step(s, e);
    if UpHere(s', r) && n in s'.state && s'.state[n] == r {
      StepRises(s, e, r);
      RegisteredBefore(s, e, n, r);
      OwnLineIsSilent(s, e, n, r, p);
      hide Step, Inv, FailureCount, OwnReadyLine, UpHere;
      if UpHere(s, r) { CountStep(s, e, n, r, count); } else { AnswerClearsCount(s, e, n, r); }
    }
  }

  lemma {:induction false} RunCountsWhileUp(s: Supervisor, events: seq<Event>, n: Name, r: RowId, p: ChildId,
                                            count: nat)
    requires Inv(s) && UpByProbeOnly(s, n, r, p) && AllPolled(events, n, false)
    requires UpHere(s, r) && n in s.state && s.state[n] == r ==> FailureCount(s, n) <= count
    ensures var f := Run(s, events);
            && Inv(f) && r < |f.rows|
            && (UpHere(f, r) && n in f.state && f.state[n] == r ==>
                  FailureCount(f, n) <= OwnStreak(s, events, r, count))
    decreases |events|
  {
    if events != [] {
      hide Inv, Step, OwnFailures, FailureCount, UpHere, Polled, NoWakeOf;
      StepKeeps(s, events[0]);
      StaysUpByProbeOnly(s, events[0], n, r, p);
      UpCountStep(s, events[0], n, r, p, count);
      RunCountsWhileUp(Step(s, events[0]), events[1..], n, r, p, OwnFailures(s, events[0], r, count));
    }
  }

  /** Without a ready pattern a service that nobody wakes comes up by a probe, which forgets what was
   *  counted before. */
  lemma UnwokenFallsByItsOwn(s: Supervisor, r: RowId)
    requires Inv(s) && JustSpawned(s, r) && !s.rows[r].svc.hasReadyPattern && NoWakeOf(s, s.rows[r].svc.name)
    ensures FallsByItsOwn(s, r, false)
  {
    var n, p := s.rows[r].svc.name, s.rows[r].owned.value;
    assert RowOk(s.rows, s.children, r) && UpByProbeOnly(s, n, r, p) && !UpHere(s, r);
    hide Inv, Step, Run, UpByProbeOnly, AllPolled;
    forall events, k | AllPolled(events, n, false) && TakenDown(Run(s, events), k, r)
                       && Run(s, events).rows[r].svc == s.rows[r].svc
      ensures OwnStreak(s, events, r, 0) + 1 >= s.rows[r].svc.failureThreshold
    {
      RunCountsWhileUp(s, events, n, r, p, 0);
      DownNeedsCount(Run(s, events), k, r);
    }
  }

  // ---------------------------------------------------------------- with an inherited count

  /** Up, past its start period and probed when its turn comes. */
  predicate Probed(s: Supervisor, n: Name, r: RowId) {
    && Registered(s, n) && s.state[n] == r && IsRunning(s, s.rows[r]) && s.rows[r].remote.None?
    && s.rows[r].status.Running? && s.rows[r].health.Up?
    && (s.rows[r].startedAt.Some? ==> s.rows[r].startedAt.value + s.rows[r].svc.startPeriodMs <= s.clock)
  }

  /** The process announces itself, or an on-demand start of it settles, and its start period passes. */
  function Rise(s: Supervisor, r: RowId): seq<Event>
    requires JustSpawned(s, r)
  {
    var st := s.rows[r];
    (if st.svc.hasReadyPattern then [Line(st.owned.value, true)]
     else [WakeBegin(st.svc), WakeSettles(|s.wakes|, true)])
    + [Tick(StartPeriod(st))]
  }

  function Rounds(n: Name, polls: nat, m: nat): seq<Event>
    decreases m
  {
    if m == 0 then [] else [PollBegin(n), PollResult(polls, false)] + Rounds(n, polls + 1, m - 1)
  }

  lemma SaysSo(s: Supervisor, r: RowId)
    requires Inv(s) && JustSpawned(s, r) && s.rows[r].svc.hasReadyPattern
    ensures CameUp(s, OnLine(s, s.rows[r].owned.value, true), r)
  {
    assert RowOk(s.rows, s.children, r);
  }

  lemma IsWoken(s: Supervisor, r: RowId)
    requires JustSpawned(s, r)
    ensures CameUp(s, OnWakeSettles(OnWakeBegin(s, s.rows[r].svc), |s.wakes|, true), r)
  {
    WritesPassPromises(s, s.wakes, s.reports, s.rows[r].svc.name, true, true);
  }

  /** The state object is up and running, and nothing was probed. */
  predicate CameUp(s: Supervisor, f: Supervisor, r: RowId)
    requires r < |s.rows|
  {
    && Registered(f, s.rows[r].svc.name) && f.state[s.rows[r].svc.name] == r && IsRunning(f, f.rows[r])
    && f.rows[r].remote.None? && f.rows[r].status.Running? && f.rows[r].health.Up?
    && f.rows[r].svc == s.rows[r].svc && f.rows[r].startedAt == s.rows[r].startedAt
    && f.polls == s.polls && f.tallies == s.tallies
  }

  lemma NoAnswers(s: Supervisor, events: seq<Event>, r: RowId, count: nat)
    requires forall e :: e in events ==> !e.PollResult?
    ensures OwnStreak(s, events, r, count) == count
    decreases |events|
  {
    hide Step;
    if events != [] { NoAnswers(Step(s, events[0]), events[1..], r, count); }
  }

  lemma ThreeRun(s: Supervisor, a: Event, b: Event, c: Event)
    ensures Run(s, [a, b]) == Step(Step(s, a), b)
    ensures Run(s, [a, b] + [c]) == Step(Step(Step(s, a), b), c)
  {
    hide Step;
    var one, none := [b][1..], [c][1..];
    assert one == [] && none == [] && [a, b][1..] == [b] && ([a, b] + [c])[1..] == [b] + [c] && ([b] + [c])[1..] == [c];
    assert Run(Step(Step(s, a), b), one) == Step(Step(s, a), b);
    assert Run(Step(Step(Step(s, a), b), c), none) == Step(Step(Step(s, a), b), c);
    assert Run(Step(Step(s, a), b), [c]) == Run(Step(Step(Step(s, a), b), c), none);
  }

  /** Up, past its start period, and not probed yet. */
  predicate HasRisen(s: Supervisor, f: Supervisor, r: RowId)
    requires r < |s.rows|
  {
    && Probed(f, s.rows[r].svc.name, r) && f.rows[r].svc == s.rows[r].svc && f.polls == s.polls
    && f.tallies == s.tallies
  }

  function StartPeriod(st: ProcessState): nat {
    if st.startedAt.Some? then st.startedAt.value + st.svc.startPeriodMs else 0
  }

  lemma TimePasses(s: Supervisor, f: Supervisor, r: RowId, ms: nat)
    requires r < |s.rows| && CameUp(s, f, r) && ms == StartPeriod(s.rows[r])
    ensures HasRisen(s, Step(f, Tick(ms)), r)
  {
    hide Step;
    StepIs(f, Tick(ms));
  }

  lemma RisesByItsWord(s: Supervisor, r: RowId)
    requires Inv(s) && JustSpawned(s, r) && s.rows[r].svc.hasReadyPattern
    ensures HasRisen(s, Run(s, Rise(s, r)), r)
  {
    var line, ms := Line(s.rows[r].owned.value, true), StartPeriod(s.rows[r]);
    StepIs(s, line);
    SaysSo(s, r);
    assert Rise(s, r) == [line, Tick(ms)];
    hide *;
    ThreeRun(s, line, Tick(ms), Tick(0));
    TimePasses(s, Step(s, line), r, ms);
  }

  lemma RisesByWake(s: Supervisor, r: RowId)
    requires JustSpawned(s, r) && !s.rows[r].svc.hasReadyPattern
    ensures HasRisen(s, Run(s, Rise(s, r)), r)
  {
    var a, b, ms := WakeBegin(s.rows[r].svc), WakeSettles(|s.wakes|, true), StartPeriod(s.rows[r]);
    StepIs(s, a);
    StepIs(OnWakeBegin(s, s.rows[r].svc), b);
    IsWoken(s, r);
    assert Rise(s, r) == [a, b] + [Tick(ms)];
    hide *;
    ThreeRun(s, a, b, Tick(ms));
    TimePasses(s, Step(Step(s, a), b), r, ms);
  }

  lemma Rises(s: Supervisor, r: RowId)
    requires Inv(s) && JustSpawned(s, r)
    ensures HasRisen(s, Run(s, Rise(s, r)), r) && OwnStreak(s, Rise(s, r), r, 0) == 0
  {
    NoAnswers(s, Rise(s, r), r, 0);
    hide Inv, Run, Rise, JustSpawned, HasRisen;
    if s.rows[r].svc.hasReadyPattern { RisesByItsWord(s, r); } else { RisesByWake(s, r); }
  }

  /** A failing round below the threshold. */
  lemma OneRound(s: Supervisor, n: Name, r: RowId, count: nat)
    requires Probed(s, n, r) && FailureCount(s, n) + 1 < s.rows[r].svc.failureThreshold
    ensures var k := |s.polls|;
            var s1 := Step(s, PollBegin(n));
            var s2 := Step(s1, PollResult(k, false));
            && FailedMore(s, s2, n, r, 1) && |s2.polls| == k + 1
            && Probed(s2, n, r) && s2.rows[r].svc == s.rows[r].svc && FailureCount(s2, n) == FailureCount(s, n) + 1
            && OwnFailures(s1, PollResult(k, false), r, OwnFailures(s, PollBegin(n), r, count)) == count + 1
  {
    var k := |s.polls|;
    hide Step;
    StepIs(s, PollBegin(n));
    StepIs(Step(s, PollBegin(n)), PollResult(k, false));
  }

  /** From `s` to `f` the process stays up, and its streak grows by `m`. */
  predicate FailedMore(s: Supervisor, f: Supervisor, n: Name, r: RowId, m: nat) {
    && Probed(s, n, r) && Probed(f, n, r)
    && f.rows[r].svc == s.rows[r].svc && FailureCount(f, n) == FailureCount(s, n) + m
  }

  lemma FailuresAdd(a: Supervisor, b: Supervisor, c: Supervisor, n: Name, r: RowId, i: nat, j: nat)
    requires FailedMore(a, b, n, r, i) && FailedMore(b, c, n, r, j)
    ensures FailedMore(a, c, n, r, i + j)
  {}

  lemma {:induction false} FailingRounds(s: Supervisor, n: Name, r: RowId, m: nat, count: nat)
    requires Probed(s, n, r) && FailureCount(s, n) + m < s.rows[r].svc.failureThreshold
    ensures FailedMore(s, Run(s, Rounds(n, |s.polls|, m)), n, r, m)
    ensures OwnStreak(s, Rounds(n, |s.polls|, m), r, count) == count + m
    decreases m
  {
    if m == 0 {
      hide Step, Probed, FailureCount;
    } else {
      hide *;
      var k := |s.polls|;
      var s2 := Step(Step(s, PollBegin(n)), PollResult(k, false));
      OneRound(s, n, r, count);
      OneRoundOf(s, n, r, m, count);
      FailingRounds(s2, n, r, m - 1, count + 1);
      FailuresAdd(s, s2, Run(s2, Rounds(n, k + 1, m - 1)), n, r, 1, m - 1);
    }
  }

  /** Of `m` rounds the first one is done; the rest goes on from there. */
  lemma OneRoundOf(s: Supervisor, n: Name, r: RowId, m: nat, count: nat)
    requires m > 0 && Probed(s, n, r) && FailureCount(s, n) + 1 < s.rows[r].svc.failureThreshold
    ensures var rest := Rounds(n, |s.polls| + 1, m - 1);
            var s2 := Step(Step(s, PollBegin(n)), PollResult(|s.polls|, false));
            && Run(s, Rounds(n, |s.polls|, m)) == Run(s2, rest)
            && OwnStreak(s, Rounds(n, |s.polls|, m), r, count) == OwnStreak(s2, rest, r, count + 1)
  {
    hide *;
    var k := |s.polls|;
    OneRound(s, n, r, count);
    RoundsIs(n, k, m);
    TwoFirst(s, PollBegin(n), PollResult(k, false), Rounds(n, k + 1, m - 1), r, count);
  }

  lemma RoundsIs(n: Name, polls: nat, m: nat)
    requires m > 0
    ensures Rounds(n, polls, m) == [PollBegin(n), PollResult(polls, false)] + Rounds(n, polls + 1, m - 1)
  {}

  lemma TwoFirst(s: Supervisor, a: Event, b: Event, rest: seq<Event>, r: RowId, count: nat)
    ensures var s1 := Step(s, a);
            var s2 := Step(s1, b);
            && Run(s, [a, b] + rest) == Run(s2, rest)
            && OwnStreak(s, [a, b] + rest, r, count)
               == OwnStreak(s2, rest, r, OwnFailures(s1, b, r, OwnFailures(s, a, r, count)))
  {
    hide Step, OwnFailures;
    var all := [a, b] + rest;
    assert all[1..] == [b] + rest && ([b] + rest)[1..] == rest;
  }

  lemma LastRound(s: Supervisor, n: Name, r: RowId)
    requires Probed(s, n, r) && FailureCount(s, n) + 1 >= s.rows[r].svc.failureThreshold
    ensures var f := Step(s, PollBegin(n));
            TakenDown(f, |s.polls|, r) && f.rows[r].svc == s.rows[r].svc
    ensures !OwnAnswer(s, PollBegin(n), r)
  {
    var f := Step(s, PollBegin(n));
    hide Step;
    StepIs(s, PollBegin(n));
    StepIs(f, PollResult(|s.polls|, false));
  }

  lemma {:induction false} RunsOn(s: Supervisor, a: seq<Event>, b: seq<Event>, r: RowId, count: nat)
    ensures Run(s, a + b) == Run(Run(s, a), b)
    ensures OwnStreak(s, a + b, r, count) == OwnStreak(Run(s, a), b, r, OwnStreak(s, a, r, count))
    decreases |a|
  {
    hide Step, OwnFailures;
    if a == [] {
      assert a + b == b;
    } else {
      assert (a + b)[1..] == a[1..] + b;
      RunsOn(Step(s, a[0]), a[1..], b, r, OwnFailures(s, a[0], r, count));
    }
  }

  lemma OneLast(s: Supervisor, events: seq<Event>, e: Event, r: RowId, count: nat)
    ensures Run(s, events + [e]) == Step(Run(s, events), e)
    ensures OwnStreak(s, events + [e], r, count) == OwnFailures(Run(s, events), e, r, OwnStreak(s, events, r, count))
  {
    hide Step, OwnFailures;
    RunsOn(s, events, [e], r, count);
    var rest := [e][1..];
    assert rest == [];
    assert Run(Run(s, events), [e]) == Run(Step(Run(s, events), e), rest);
  }

  /** How a process that inherited a streak goes down early: it comes up, and fails as often as is
   *  missing to the threshold. */
  function EarlyFall(s: Supervisor, r: RowId): seq<Event>
    requires JustSpawned(s, r)
  {
    var n := s.rows[r].svc.name;
    var missing := s.rows[r].svc.failureThreshold - 1 - FailureCount(s, n);
    Rise(s, r) + Rounds(n, |s.polls|, if missing > 0 then missing else 0) + [PollBegin(n)]
  }

  /** Up, and one failure short of the threshold, on fewer failures of its own. */
  lemma RisesAndFails(s: Supervisor, r: RowId, m: nat)
    requires Inv(s) && JustSpawned(s, r)
    requires FailureCount(s, s.rows[r].svc.name) + m < s.rows[r].svc.failureThreshold
    ensures var n := s.rows[r].svc.name;
            var events := Rise(s, r) + Rounds(n, |s.polls|, m);
            var f := Run(s, events);
            && Probed(f, n, r) && f.rows[r].svc == s.rows[r].svc && FailureCount(f, n) == FailureCount(s, n) + m
            && OwnStreak(s, events, r, 0) == m
  {
    var n, up := s.rows[r].svc.name, Run(s, Rise(s, r));
    Rises(s, r);
    assert FailureCount(up, n) == FailureCount(s, n);
    hide Step, Run, Rise, Rounds, Probed, OwnFailures, OwnStreak, Inv, JustSpawned;
    RunsOn(s, Rise(s, r), Rounds(n, |s.polls|, m), r, 0);
    FailingRounds(up, n, r, m, 0);
  }

  lemma LastFailure(s: Supervisor, events: seq<Event>, n: Name, r: RowId, m: nat)
    requires var f := Run(s, events);
             Probed(f, n, r) && FailureCount(f, n) + 1 >= f.rows[r].svc.failureThreshold
    requires OwnStreak(s, events, r, 0) == m
    ensures var f := Run(s, events);
            var g := Run(s, events + [PollBegin(n)]);
            && TakenDown(g, |f.polls|, r) && g.rows[r].svc == f.rows[r].svc
            && OwnStreak(s, events + [PollBegin(n)], r, 0) == m
  {
    var f := Run(s, events);
    LastRound(f, n, r);
    hide Step, Probed, OwnFailures, TakenDown, OwnAnswer;
    OneLast(s, events, PollBegin(n), r, 0);
    NoAnswerAdds(f, PollBegin(n), r, m);
  }

  lemma FallsEarly(s: Supervisor, r: RowId)
    requires Inv(s) && JustSpawned(s, r)
    requires FailureCount(s, s.rows[r].svc.name) > 0 && s.rows[r].svc.failureThreshold > 1
    ensures var f := Run(s, EarlyFall(s, r));
            && (exists k :: TakenDown(f, k, r))
            && f.rows[r].svc == s.rows[r].svc
            && OwnStreak(s, EarlyFall(s, r), r, 0) + 1 < s.rows[r].svc.failureThreshold
  {
    var n, threshold := s.rows[r].svc.name, s.rows[r].svc.failureThreshold;
    var missing := threshold - 1 - FailureCount(s, n);
    var m := if missing > 0 then missing else 0;
    var events := Rise(s, r) + Rounds(n, |s.polls|, m);
    assert EarlyFall(s, r) == events + [PollBegin(n)];
    hide Step, Run, Rise, EarlyFall, Rounds, Probed, OwnFailures, OwnStreak, Inv, JustSpawned, TakenDown, FailureCount;
    if missing > 0 {
      RisesAndFails(s, r, m);
      LastFailure(s, events, n, r, m);
    } else {
      RisesOnly(s, r);
      LastFailure(s, events, n, r, 0);
    }
    assert TakenDown(Run(s, events + [PollBegin(n)]), |Run(s, events).polls|, r);
  }

  /** The inherited streak alone may be long enough. */
  lemma RisesOnly(s: Supervisor, r: RowId)
    requires Inv(s) && JustSpawned(s, r)
    ensures var n := s.rows[r].svc.name;
            var events := Rise(s, r) + Rounds(n, |s.polls|, 0);
            var f := Run(s, events);
            && Probed(f, n, r) && f.rows[r].svc == s.rows[r].svc && FailureCount(f, n) == FailureCount(s, n)
            && OwnStreak(s, events, r, 0) == 0
  {
    Rises(s, r);
    assert Rise(s, r) + Rounds(s.rows[r].svc.name, |s.polls|, 0) == Rise(s, r);
    hide Step, Run, Rise, Probed, OwnFailures, Inv, JustSpawned;
  }

  lemma NoAnswerAdds(s: Supervisor, e: Event, r: RowId, count: nat)
    requires !OwnAnswer(s, e, r)
    ensures OwnFailures(s, e, r, count) == count
  {}

  lemma RoundsArePolled(n: Name, polls: nat, m: nat, lazy: bool)
    ensures AllPolled(Rounds(n, polls, m), n, lazy)
    decreases m
  {
    if m > 0 { RoundsArePolled(n, polls + 1, m - 1, lazy); }
  }

  lemma EarlyFallIsPolled(s: Supervisor, r: RowId, lazy: bool)
    requires JustSpawned(s, r) && (lazy || s.rows[r].svc.hasReadyPattern)
    ensures AllPolled(EarlyFall(s, r), s.rows[r].svc.name, lazy)
  {
    var n := s.rows[r].svc.name;
    var missing := s.rows[r].svc.failureThreshold - 1 - FailureCount(s, n);
    RoundsArePolled(n, |s.polls|, if missing > 0 then missing else 0, lazy);
  }

  lemma FallsOnOthers(s: Supervisor, r: RowId, lazy: bool)
    requires Inv(s) && JustSpawned(s, r) && (lazy || s.rows[r].svc.hasReadyPattern)
    requires FailureCount(s, s.rows[r].svc.name) > 0 && s.rows[r].svc.failureThreshold > 1
    ensures !FallsByItsOwn(s, r, lazy)
  {
    hide Inv, AllPolled;
    EarlyFallIsPolled(s, r, lazy);
    FallsEarly(s, r);
  }

  /** A process just spawned is taken from up on failures of its own only, whatever happens, if and only
   *  if no failure of an earlier process of the name was still counted, or a single one is enough, or
   *  only a probe can bring it up: without a ready pattern, and not behind an on-demand proxy. */
  lemma OwnFailuresExactlyWhenFresh(s: Supervisor, r: RowId, lazy: bool)
    requires Inv(s) && JustSpawned(s, r) && (lazy || NoWakeOf(s, s.rows[r].svc.name))
    ensures FallsByItsOwn(s, r, lazy)
            <==> || FailureCount(s, s.rows[r].svc.name) == 0 || s.rows[r].svc.failureThreshold <= 1
                 || (!s.rows[r].svc.hasReadyPattern && !lazy)
  {
    hide AllPolled, Inv;
    if FailureCount(s, s.rows[r].svc.name) == 0 {
      FreshCountFallsByItsOwn(s, r, lazy);
    } else if !s.rows[r].svc.hasReadyPattern && !lazy {
      UnwokenFallsByItsOwn(s, r);
    } else if s.rows[r].svc.failureThreshold > 1 {
      FallsOnOthers(s, r, lazy);
    }
  }

  /** The count that decides is there before the start: starting does not touch it. */
  lemma CountIsThereBefore(s: Supervisor, e: Event, n: Name)
    requires Inv(s) && StartedName(s, e).Some?
    ensures FailureCount(Step(s, e), n) == FailureCount(s, n)
  {
    hide Step, Inv;
    FailuresMove(s, e);
  }
}
