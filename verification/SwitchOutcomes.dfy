/** What a switch achieves: it is answered at once exactly when there is nothing to do, an answer of yes means
 *  that the service is where it was asked to go, and with its port free it gets there, and back. */
module SwitchOutcomes {
  import opened Options
  import opened Supervision
  import opened SupervisionInvariants
  import opened RestartAdvertising
  import opened Provenance
  import opened StartOutcomes
  import opened StepSources
  import opened CallOutcomes
  import opened Switching
  import opened SwitchClaims
  import opened SwitchSafety

  // ---------------------------------------------------------------- what a call is answered

  /** Where the entry says that the service is, once the switch is done. */
  function Asked(goal: Goal): Option<string> {
    match goal
    case ToRemote(env) => Some(env)
    case ToLocal => None
  }

  /** The service is registered and configured, and the environment has a target for it. */
  predicate Known(config: SwitchConfig, k: Stack, n: Name, goal: Goal) {
    && n in k.sup.state && k.sup.state[n] < |k.sup.rows|
    && n in config.services && config.services[n].name == n
    && match goal
       case ToRemote(env) => env in config.targets && n in config.targets[env]
       case ToLocal => true
  }

  /** The switch that a call adds; there is nothing else behind it when it is answered at once. */
  ghost predicate CallIs(config: SwitchConfig, k: Stack, k': Stack, n: Name, goal: Goal)
    requires Known(config, k, n, goal) && Registered(k'.sup, n)
  {
    var i, there := |k.switches|, Entry(k.sup, n).remote == Asked(goal);
    && |k'.switches| == i + 1 && k'.switches[..i] == k.switches
    && k'.switches[i] == Switch(n, config.services[n], k.sup.state[n], goal, k'.switches[i].phase)
    && (k'.switches[i].phase == Answered(true) <==> there)
    && (there ==> k' == k.(switches := k'.switches))
    && (!there ==>
          && k'.switches[i].phase == Polling(k.sup.clock + 8000) && k'.sockets == k.sockets
          && k'.proxies.remote == k.proxies.remote - {n}
          && k'.proxies.lazy == (if goal.ToRemote? then k.proxies.lazy - {n} else k.proxies.lazy)
          && if goal.ToLocal? then k'.sup == k.sup
             else Cancelled(k.sup, k'.sup, n) && (Stoppable(k.sup, n) ==> Entry(k'.sup, n).intentionalStop))
  }

  /** A call that is accepted is answered at once exactly when the entry already says what is asked for, and then
   *  nothing changes; otherwise it lets go of the proxies and begins to poll.  One that is not changes nothing. */
  lemma CallAnswers(config: SwitchConfig, k: Stack, n: Name, goal: Goal)
    ensures var k' := StackStep(config, k, CallSwitch(n, goal));
            if Known(config, k, n, goal) then Registered(k'.sup, n) && CallIs(config, k, k', n, goal) else k' == k
  {
    if Registered(k.sup, n) { ReleaseStops(k.sup, n); }
    hide CancelRestart, StopService, Cancelled;
  }

  lemma ReleaseStops(s: Supervisor, n: Name)
    requires Registered(s, n)
    ensures var s' := StopService(CancelRestart(s, n), n);
            && s'.clock == s.clock && s'.state == s.state && Registered(s', n) && Cancelled(s, s', n)
            && (Stoppable(s, n) ==> Entry(s', n).intentionalStop)
  {
    var s1 := CancelRestart(s, n);
    var s2 := CancelRestart(s1, n);
    CancelCancels(s, n);
    CancelCancels(s1, n);
    SignalLeavesQueue(s2, n, false);
    assert Stoppable(s, n) ==> Stoppable(s2, n);
    hide CancelRestart, SignalService, Stoppable;
  }

  /** A poll ends with a yes when the port can be bound, with a no at its deadline and not before; until then the
   *  switch polls on.  Neither changes anything else. */
  lemma PollEndsExactly(config: SwitchConfig, k: Stack, i: nat, free: bool)
    requires i < |k.switches| && k.switches[i].phase.Polling?
    ensures var k', w := StackStep(config, k, AnswerPort(i, free)), k.switches[i];
            && k' == k.(switches := k'.switches) && |k'.switches| == |k.switches|
            && (forall j :: 0 <= j < |k.switches| && j != i ==> k'.switches[j] == k.switches[j])
            && k'.switches[i] == w.(phase := k'.switches[i].phase)
            && k'.switches[i].phase == if free && Bindable(k, w.svc.port) then Cleared
                                       else if !free && w.phase.deadline <= k.sup.clock then Answered(false)
                                       else w.phase
  {
    hide Bindable;
  }

  // ---------------------------------------------------------------- an answer of yes

  /** The step answers the switch with yes. */
  predicate SaysYes(k: Stack, k': Stack, i: nat, n: Name) {
    && i < |k'.switches| && k'.switches[i].name == n && k'.switches[i].phase == Answered(true)
    && (i < |k.switches| ==> k.switches[i].phase != Answered(true))
  }

  /** The entry is where it was asked to be; back home, no remote proxy is left, and unless it was there before
   *  a start of it is asked for. */
  ghost predicate IsThere(k: Stack, k': Stack, n: Name, goal: Goal) {
    && Registered(k'.sup, n) && Entry(k'.sup, n).remote == Asked(goal)
    && (goal.ToLocal? ==>
          && n !in k'.proxies.remote
          && (Elsewhere(k.sup, n) ==> exists q :: Open(k'.sup, q, n)))
  }

  lemma CallSaysYes(config: SwitchConfig, k: Stack, m: Name, goal: Goal, i: nat, n: Name)
    requires Configured(config, n) && StackInv(config, k, n)
    requires SaysYes(k, StackStep(config, k, CallSwitch(m, goal)), i, n)
    ensures var k' := StackStep(config, k, CallSwitch(m, goal)); IsThere(k, k', n, k'.switches[i].goal)
  {
    CallAnswers(config, k, m, goal);
    var k' := StackStep(config, k, CallSwitch(m, goal));
    hide StackStep, Held;
    assert Known(config, k, m, goal);
    if i < |k.switches| { assert false; }
  }

  /** No service that an environment serves has a process. */
  ghost predicate AllDetached(s: Supervisor) {
    forall r :: 0 <= r < |s.rows| ==> Detached(s.rows[r])
  }

  lemma CommitsDetach(s: Supervisor, r: RowId, svc: ServiceConfig, env: string)
    requires AllDetached(s)
    ensures AllDetached(OnRemoteCommit(s, r, svc, env)) && AllDetached(OnLocalCommit(s, r, svc))
  {}

  lemma GoingOnDetaches(s: Supervisor, s': Supervisor)
    requires AllDetached(s) && RowsGoOn(s, s')
    ensures AllDetached(s')
  {}

  lemma {:induction false} RunDetaches(s: Supervisor, events: seq<Event>)
    requires AllDetached(s)
    ensures AllDetached(Run(s, events))
    decreases |events|
  {
    if events != [] {
      var e := events[0];
      hide Step, AllDetached, OnRemoteCommit, OnLocalCommit;
      StepIs(s, e);
      if e.RemoteCommit? { CommitsDetach(s, e.row, e.svc, e.env); }
      else if e.LocalCommit? { CommitsDetach(s, e.row, e.svc, ""); }
      else { StepRowsGoOn(s, e); GoingOnDetaches(s, Step(s, e)); }
      RunDetaches(Step(s, e), events[1..]);
    }
  }

  lemma StackRunDetaches(config: SwitchConfig, k: Stack, events: seq<StackEvent>)
    requires AllDetached(k.sup)
    ensures AllDetached(StackRun(config, k, events).sup)
  {
    hide *;
    StackRunIsRun(config, k, events);
    RunDetaches(k.sup, SupervisorRun(config, k, events));
  }

  lemma StackDetaches(config: SwitchConfig, k0: Stack, events: seq<StackEvent>)
    requires AtRest(k0)
    ensures AllDetached(StackRun(config, k0, events).sup)
  {
    assert AllDetached(k0.sup);
    hide *;
    StackRunDetaches(config, k0, events);
  }

  /** The way home: the row says so at once, and the service is asked for with its whole budget. */
  lemma HomeIsAskedFor(s: Supervisor, r: RowId, svc: ServiceConfig, n: Name)
    requires Elsewhere(s, n) && Detached(Entry(s, n)) && s.state[n] == r && svc.name == n && Entry(s, n).svc.name == n
    ensures var s1 := OnLocalCommit(s, r, svc);
            var s' := OnStartService(s1, n);
            && Registered(s1, n) && ReadsHome(Entry(s1, n), svc)
            && s1 == s.(rows := s1.rows) && Renewed(s1, s', n) && Entry(s', n).remote.None?
            && s' == s.(rows := s'.rows, queue := s'.queue, requests := s'.requests)
            && s'.requests == s.requests + [Request(n, r, Installing)] && Open(s', |s.requests|, n)
  {
    var s1 := OnLocalCommit(s, r, svc);
    assert Registered(s1, n) && ReadsHome(Entry(s1, n), svc) && Entry(s1, n).proc.None?;
    StartServiceAsks(s1, n);
    StaysHome(s1, n);
    hide OnLocalCommit, OnStartService, Cancelled;
  }

  lemma StaysHome(s: Supervisor, n: Name)
    requires Registered(s, n) && Entry(s, n).remote.None?
    ensures var s' := OnStartService(s, n); Registered(s', n) && Entry(s', n).remote.None?
  {}

  lemma OwnSwitchKnows(config: SwitchConfig, k: Stack, i: nat, n: Name)
    requires Configured(config, n) && StackInv(config, k, n) && IsCleared(k, i) && k.switches[i].name == n
    ensures var w := k.switches[i];
            && w.svc == config.services[n] && n in k.sup.state && k.sup.state[n] == w.row && Registered(k.sup, n)
            && Entry(k.sup, n).svc.name == n && (w.goal.ToLocal? ==> Elsewhere(k.sup, n))
            && n !in k.proxies.remote && n !in k.proxies.lazy && HandsOff(k.sup, n) && Inv(k.sup)
  {
    assert SwitchOk(config, k, n, i) && Unanswered(k.switches, i, n) && StateOk(k.sup.rows, k.sup.state, n);
  }

  lemma CommitSaysYes(config: SwitchConfig, k: Stack, i: nat, n: Name)
    requires Configured(config, n) && StackInv(config, k, n) && AllDetached(k.sup)
    requires IsCleared(k, i) && k.switches[i].name == n
    ensures var k', w := StackStep(config, k, CommitSwitch(i)), k.switches[i];
            && k'.switches == k.switches[i := w.(phase := Answered(true))] && IsThere(k, k', n, w.goal)
  {
    var w := k.switches[i];
    OwnSwitchKnows(config, k, i, n);
    if w.goal.ToRemote? { CommitsRemote(config, k, i, n); }
    else { HomeIsAskedFor(k.sup, w.row, w.svc, n); }
    hide StackInv, OnRemoteCommit, OnLocalCommit, OnStartService, HandsOff, Inv, Renewed;
  }

  lemma OthersSayNothing(config: SwitchConfig, k: Stack, e: StackEvent, i: nat, n: Name)
    requires !e.CallSwitch? && !e.CommitSwitch?
    ensures !SaysYes(k, StackStep(config, k, e), i, n)
  {
    hide Step, OnRegisterLazy, OnRegisterRemote, Bindable;
  }

  lemma CommitsOnlyItsOwn(config: SwitchConfig, k: Stack, j: nat, i: nat, n: Name)
    requires SaysYes(k, StackStep(config, k, CommitSwitch(j)), i, n)
    ensures IsCleared(k, j) && i == j && k.switches[i].name == n
  {
    hide OnRemoteCommit, OnLocalCommit, OnStartService;
  }

  /** In any run in which the callers of a service take turns: whenever a switch is answered with yes, at the call
   *  or at its commit, the entry is where it was asked to be; and unless it was already at home, a switch home
   *  has let go of the remote proxy and left a start of the service asked for. */
  lemma YesMeansThere(config: SwitchConfig, k0: Stack, before: seq<StackEvent>, e: StackEvent, i: nat, n: Name)
    requires Configured(config, n) && AtRest(k0) && OrderlyRun(config, k0, before, n)
    requires var k := StackRun(config, k0, before); SaysYes(k, StackStep(config, k, e), i, n)
    ensures var k := StackRun(config, k0, before);
            var k' := StackStep(config, k, e);
            IsThere(k, k', n, k'.switches[i].goal)
  {
    RestInv(config, k0, n);
    RunInv(config, k0, before, n);
    StackDetaches(config, k0, before);
    var k := StackRun(config, k0, before);
    hide StackInv, StackStep, StackRun, OrderlyRun, AtRest, AllDetached, IsThere;
    if e.CallSwitch? { CallSaysYes(config, k, e.name, e.goal, i, n); }
    else if e.CommitSwitch? {
      CommitsOnlyItsOwn(config, k, e.switch, i, n);
      CommitSaysYes(config, k, i, n);
    } else { OthersSayNothing(config, k, e, i, n); }
  }

  // ---------------------------------------------------------------- a switch whose port comes free

  /** The call, the port found free, and the commit. */
  function SwitchOver(n: Name, goal: Goal, i: nat): seq<StackEvent> {
    [CallSwitch(n, goal), AnswerPort(i, true), CommitSwitch(i)]
  }

  lemma FirstEvent(config: SwitchConfig, k: Stack, a: StackEvent, rest: seq<StackEvent>)
    ensures StackRun(config, k, [a] + rest) == StackRun(config, StackStep(config, k, a), rest)
    ensures StackRun(config, k, []) == k
  {
    hide StackStep;
    assert ([a] + rest)[1..] == rest;
  }

  lemma ThreeEvents(config: SwitchConfig, k: Stack, a: StackEvent, b: StackEvent, c: StackEvent)
    ensures StackRun(config, k, [a, b, c])
            == StackStep(config, StackStep(config, StackStep(config, k, a), b), c)
  {
    var k1 := StackStep(config, k, a);
    var k2 := StackStep(config, k1, b);
    hide StackStep, StackRun;
    assert [a, b, c] == [a] + [b, c] && [b, c] == [b] + [c] && [c] == [c] + [];
    FirstEvent(config, k, a, [b, c]);
    FirstEvent(config, k1, b, [c]);
    FirstEvent(config, k2, c, []);
    FirstEvent(config, StackStep(config, k2, c), c, []);
  }

  lemma ThreeOrderly(config: SwitchConfig, k: Stack, a: StackEvent, b: StackEvent, c: StackEvent, n: Name)
    requires Configured(config, n) && Orderly(config, k, a, n) && b.AnswerPort? && c.CommitSwitch?
    ensures OrderlyRun(config, k, [a, b, c], n)
  {
    var k1 := StackStep(config, k, a);
    var k2 := StackStep(config, k1, b);
    assert Orderly(config, k1, b, n) && Orderly(config, k2, c, n);
    hide StackStep, Orderly;
    assert [a, b, c][1..] == [b, c] && [b, c][1..] == [c] && [c][1..] == [];
    assert OrderlyRun(config, StackStep(config, k2, c), [], n);
    assert OrderlyRun(config, k2, [c], n);
    assert OrderlyRun(config, k1, [b, c], n);
  }

  /** Three events, the last of them the commit. */
  lemma SwitchOverRuns(config: SwitchConfig, k: Stack, n: Name, goal: Goal)
    requires Configured(config, n) && Orderly(config, k, CallSwitch(n, goal), n)
    ensures var i := |k.switches|;
            var k2 := StackStep(config, StackStep(config, k, CallSwitch(n, goal)), AnswerPort(i, true));
            && StackRun(config, k, SwitchOver(n, goal, i)) == Commit(k2, i)
            && OrderlyRun(config, k, SwitchOver(n, goal, i), n)
  {
    var i := |k.switches|;
    var k2 := StackStep(config, StackStep(config, k, CallSwitch(n, goal)), AnswerPort(i, true));
    assert StackStep(config, k2, CommitSwitch(i)) == Commit(k2, i);
    hide StackStep, StackRun, OrderlyRun, Orderly, Commit;
    ThreeEvents(config, k, CallSwitch(n, goal), AnswerPort(i, true), CommitSwitch(i));
    ThreeOrderly(config, k, CallSwitch(n, goal), AnswerPort(i, true), CommitSwitch(i), n);
  }

  /** A call that is not answered at once, of a service whose port is free once it has let go of it. */
  ghost predicate CanSwitch(config: SwitchConfig, k: Stack, n: Name, goal: Goal)
    requires Configured(config, n)
  {
    && Orderly(config, k, CallSwitch(n, goal), n) && Known(config, k, n, goal)
    && Entry(k.sup, n).remote != Asked(goal)
    && Bindable(StackStep(config, k, CallSwitch(n, goal)), config.services[n].port)
  }

  lemma IsCalledAndCleared(config: SwitchConfig, k: Stack, n: Name, goal: Goal)
    requires Configured(config, n) && StackInv(config, k, n) && CanSwitch(config, k, n, goal)
    ensures var i, k1 := |k.switches|, StackStep(config, k, CallSwitch(n, goal));
            var k2 := StackStep(config, k1, AnswerPort(i, true));
            && StackInv(config, k2, n) && IsCleared(k2, i) && k2.switches[i].name == n && k2.switches[i].goal == goal
            && k2.sup == k1.sup && k2.proxies == k1.proxies && k2.sockets == k1.sockets && |k2.switches| == i + 1
            && (goal.ToLocal? ==> k1.sup == k.sup)
  {
    var i, k1 := |k.switches|, StackStep(config, k, CallSwitch(n, goal));
    CallAnswers(config, k, n, goal);
    hide StackInv, StackStep, Bindable, Orderly, Cancelled, Stoppable;
    StackStepKeeps(config, k, CallSwitch(n, goal), n);
    AnswerFrees(config, k1, i);
    AnswerKeeps(config, k1, i, true, n);
  }

  lemma AnswerFrees(config: SwitchConfig, k: Stack, i: nat)
    requires IsPolling(k, i) && Bindable(k, k.switches[i].svc.port)
    ensures StackStep(config, k, AnswerPort(i, true)) == PortAnswer(k, i, true) == SetPhase(k, i, Cleared)
  {}

  /** The row of a service that has just been switched to an environment: nothing of its process is left in it,
   *  and nobody has heard of the environment yet. */
  predicate ReadsAway(s: Supervisor, st: ProcessState, svc: ServiceConfig, env: string) {
    && st.svc == svc && st.remote == Some(env) && st.proc.None? && st.pid.None?
    && st.status.Running? && st.health.Waiting? && st.startedAt == Some(s.clock)
  }

  /** A switch to an environment whose port comes free serves the service from there, and from nowhere else. */
  lemma SwitchArrivesAway(config: SwitchConfig, k0: Stack, before: seq<StackEvent>, n: Name, env: string)
    requires Configured(config, n) && AtRest(k0) && OrderlyRun(config, k0, before, n)
    requires CanSwitch(config, StackRun(config, k0, before), n, ToRemote(env))
    ensures var k := StackRun(config, k0, before);
            var events, i := SwitchOver(n, ToRemote(env), |k.switches|), |k.switches|;
            var f := StackRun(config, k, events);
            && OrderlyRun(config, k, events, n) && |f.switches| == i + 1 && f.switches[i].phase == Answered(true)
            && Registered(f.sup, n) && ReadsAway(f.sup, Entry(f.sup, n), config.services[n], env)
            && n in f.proxies.remote && f.proxies.remote[n] == RemoteProxy(config.services[n].port, env)
            && ServedOnlyRemotely(config, f, n)
  {
    RestInv(config, k0, n);
    RunInv(config, k0, before, n);
    var k := StackRun(config, k0, before);
    ArrivesAway(config, k, n, env);
    hide *;
  }

  lemma ArrivesAway(config: SwitchConfig, k: Stack, n: Name, env: string)
    requires Configured(config, n) && StackInv(config, k, n) && CanSwitch(config, k, n, ToRemote(env))
    ensures var events, i := SwitchOver(n, ToRemote(env), |k.switches|), |k.switches|;
            var f := StackRun(config, k, events);
            && OrderlyRun(config, k, events, n) && |f.switches| == i + 1 && f.switches[i].phase == Answered(true)
            && Registered(f.sup, n) && ReadsAway(f.sup, Entry(f.sup, n), config.services[n], env)
            && n in f.proxies.remote && f.proxies.remote[n] == RemoteProxy(config.services[n].port, env)
            && ServedOnlyRemotely(config, f, n)
            && StackInv(config, f, n) && !Underway(f.switches, n) && HandsOff(f.sup, n)
            && TakenFrom(StackStep(config, k, CallSwitch(n, ToRemote(env))), f, n)
  {
    var i, k1 := |k.switches|, StackStep(config, k, CallSwitch(n, ToRemote(env)));
    var k2 := StackStep(config, k1, AnswerPort(i, true));
    IsCalledAndCleared(config, k, n, ToRemote(env));
    hide StackStep, StackRun, OrderlyRun, StackInv, Commit, HandsOff, Inv, ServedOnlyRemotely, Bindable;
    SwitchOverRuns(config, k, n, ToRemote(env));
    CommitsRemote(config, k2, i, n);
    CommitTakes(config, k1, k2, i, n);
    OwnSwitchKnows(config, k2, i, n);
    CommitReads(k2, i, n);
    RemoteIsAlone(config, Commit(k2, i), n);
    hide Orderly, CanSwitch, SwitchOver, Underway;
    HasPlace(config, Commit(k2, i), n);
  }

  lemma CommitReads(k: Stack, i: nat, n: Name)
    requires IsCleared(k, i) && k.switches[i].goal.ToRemote? && k.switches[i].svc.name == n
    requires Registered(k.sup, n) && k.sup.state[n] == k.switches[i].row && Entry(k.sup, n).svc.name == n
    ensures var f, w := Commit(k, i), k.switches[i];
            Registered(f.sup, n) && ReadsAway(f.sup, Entry(f.sup, n), w.svc, w.goal.env)
  {}

  lemma HasPlace(config: SwitchConfig, k: Stack, n: Name)
    requires Configured(config, n) && ServedOnlyRemotely(config, k, n)
    ensures Registered(k.sup, n)
  {}

  /** The remote proxy has taken the port that was free, and nothing else has been bound. */
  predicate TakenFrom(k: Stack, f: Stack, n: Name) {
    && f.sockets == k.sockets && f.sup.children == k.sup.children && f.sup.closing == k.sup.closing
    && f.proxies.lazy == k.proxies.lazy && f.proxies.remote - {n} == k.proxies.remote - {n}
  }

  lemma CommitTakes(config: SwitchConfig, k1: Stack, k2: Stack, i: nat, n: Name)
    requires IsCleared(k2, i) && k2.switches[i].name == n && k2.switches[i].goal.ToRemote?
    requires k2.sup == k1.sup && k2.proxies == k1.proxies && k2.sockets == k1.sockets
    ensures var f := Commit(k2, i);
            && TakenFrom(k1, f, n) && |f.switches| == |k2.switches| && f.switches[i].phase == Answered(true)
  {}

  /** The row of a service that has just come home: stopped, as if it had never run. */
  predicate ReadsHome(st: ProcessState, svc: ServiceConfig) {
    st.svc == svc && st.remote.None? && st.status.Stopped? && st.health.Down? && st.startedAt.None?
  }

  /** Home again: asked for, and no longer served from the environment. */
  ghost predicate AskedForAtHome(config: SwitchConfig, f: Stack, n: Name, q: nat)
    requires Configured(config, n)
  {
    && Registered(f.sup, n)
    && ReadsHome(Entry(f.sup, n), config.services[n]) && Entry(f.sup, n).restarts == 0
    && n !in f.proxies.remote && n !in f.proxies.lazy
    && |f.sup.requests| == q + 1 && f.sup.requests[q] == Request(n, f.sup.state[n], Installing)
    && n !in f.sup.starts.starting && Inv(f.sup)
  }

  lemma ArrivesHome(config: SwitchConfig, k: Stack, n: Name)
    requires Configured(config, n) && StackInv(config, k, n) && AllDetached(k.sup) && CanSwitch(config, k, n, ToLocal)
    ensures var events, i := SwitchOver(n, ToLocal, |k.switches|), |k.switches|;
            var f := StackRun(config, k, events);
            && OrderlyRun(config, k, events, n) && |f.switches| == i + 1 && f.switches[i].phase == Answered(true)
            && f.sup.closing == k.sup.closing && |f.sup.starts.tasks| == |k.sup.starts.tasks|
            && AskedForAtHome(config, f, n, |k.sup.requests|) && StackInv(config, f, n)
  {
    var i := |k.switches|;
    IsCalledAndCleared(config, k, n, ToLocal);
    var k2 := StackStep(config, StackStep(config, k, CallSwitch(n, ToLocal)), AnswerPort(i, true));
    OwnSwitchKnows(config, k2, i, n);
    CommitsLocal(config, k2, i, n);
    hide StackStep, StackRun, OrderlyRun, StackInv, Commit, AskedForAtHome, Bindable, HandsOff, Inv;
    SwitchOverRuns(config, k, n, ToLocal);
    CommitAsks(config, k2, i, n);
  }

  lemma CommitAsks(config: SwitchConfig, k: Stack, i: nat, n: Name)
    requires Configured(config, n) && StackInv(config, k, n) && AllDetached(k.sup)
    requires IsCleared(k, i) && k.switches[i].name == n && k.switches[i].goal.ToLocal?
    requires StackInv(config, Commit(k, i), n)
    ensures var f := Commit(k, i);
            && |f.switches| == |k.switches| && f.switches[i].phase == Answered(true)
            && f.sup.closing == k.sup.closing && |f.sup.starts.tasks| == |k.sup.starts.tasks|
            && AskedForAtHome(config, f, n, |k.sup.requests|)
  {
    var w := k.switches[i];
    OwnSwitchKnows(config, k, i, n);
    HomeIsAskedFor(k.sup, w.row, w.svc, n);
    HandOf(config, k, n);
    HandOf(config, Commit(k, i), n);
    hide StackInv, OnLocalCommit, OnStartService, HandsOff, Inv, Cancelled;
  }

  lemma HandOf(config: SwitchConfig, k: Stack, n: Name)
    requires Configured(config, n) && StackInv(config, k, n)
    ensures Inv(k.sup) && (HandsOff(k.sup, n) ==> n !in k.sup.starts.starting)
  {}

  /** A switch home whose port comes free leaves the environment at once, and when all is well brings the service
   *  up: one new process of the configured service, with its whole budget. */
  lemma SwitchArrivesHome(config: SwitchConfig, k0: Stack, before: seq<StackEvent>, n: Name)
    requires Configured(config, n) && AtRest(k0) && OrderlyRun(config, k0, before, n)
    requires CanSwitch(config, StackRun(config, k0, before), n, ToLocal) && !StackRun(config, k0, before).sup.closing
    ensures var k := StackRun(config, k0, before);
            var events, i, q := SwitchOver(n, ToLocal, |k.switches|), |k.switches|, |k.sup.requests|;
            var f := StackRun(config, k, events);
            && OrderlyRun(config, k, events, n) && |f.switches| == i + 1 && f.switches[i].phase == Answered(true)
            && AskedForAtHome(config, f, n, q)
            && var s, t := Step(f.sup, InstallDone(q, FINE)), |k.sup.starts.tasks|;
               t < |s.starts.tasks| && ServiceUp(f.sup, Run(s, CarryOn(s, t, ALL_WELL)), config.services[n])
  {
    RestInv(config, k0, n);
    RunInv(config, k0, before, n);
    StackDetaches(config, k0, before);
    var k := StackRun(config, k0, before);
    hide StackRun, OrderlyRun, StackInv, AllDetached, CanSwitch, Step, Run, CarryOn, ServiceUp, Inv, AtRest;
    ArrivesHome(config, k, n);
    StartInstalls(StackRun(config, k, SwitchOver(n, ToLocal, |k.switches|)).sup, |k.sup.requests|);
    hide SwitchOver;
  }

  // ---------------------------------------------------------------- there and back

  lemma CallKeepsOpen(config: SwitchConfig, k: Stack, n: Name, goal: Goal)
    ensures StackStep(config, k, CallSwitch(n, goal)).sup.closing == k.sup.closing
  {}

  lemma StillFree(k: Stack, f: Stack, f1: Stack, n: Name, port: int)
    requires TakenFrom(k, f, n) && Bindable(k, port) && n !in k.proxies.remote
    requires f1.sup == f.sup && f1.sockets == f.sockets && f1.proxies == Proxies(f.proxies.lazy, f.proxies.remote - {n})
    ensures Bindable(f1, port)
  {
    forall m | m in f1.proxies.remote ensures f1.proxies.remote[m].port != port {
      assert m in f.proxies.remote - {n} && m in k.proxies.remote - {n};
      assert (f.proxies.remote - {n})[m] == (k.proxies.remote - {n})[m];
    }
  }

  lemma HomeCallFrees(config: SwitchConfig, k: Stack, f: Stack, n: Name, env: string)
    requires Configured(config, n) && CanSwitch(config, k, n, ToRemote(env))
    requires TakenFrom(StackStep(config, k, CallSwitch(n, ToRemote(env))), f, n)
    requires Registered(f.sup, n) && Entry(f.sup, n).remote == Some(env)
    requires !Underway(f.switches, n) && HandsOff(f.sup, n)
    ensures CanSwitch(config, f, n, ToLocal)
  {
    var k1, f1 := StackStep(config, k, CallSwitch(n, ToRemote(env))), StackStep(config, f, CallSwitch(n, ToLocal));
    CallAnswers(config, k, n, ToRemote(env));
    assert f1.sup == f.sup && f1.sockets == f.sockets
           && f1.proxies == Proxies(f.proxies.lazy, f.proxies.remote - {n});
    StillFree(k1, f, f1, n, config.services[n].port);
    hide StackStep, TakenFrom, Bindable;
  }

  /** From any state that a run in turn reaches, with the service at home and its port free once it has let go of
   *  it: it can be switched to the environment and home again, one yes after the other.  In between it is served
   *  from the environment; afterwards it is not, and when all is well it has one new process. */
  lemma ThereAndBack(config: SwitchConfig, k0: Stack, before: seq<StackEvent>, n: Name, env: string)
    requires Configured(config, n) && AtRest(k0) && OrderlyRun(config, k0, before, n)
    requires CanSwitch(config, StackRun(config, k0, before), n, ToRemote(env))
    requires var k := StackRun(config, k0, before); Entry(k.sup, n).remote.None? && !k.sup.closing
    ensures var k := StackRun(config, k0, before);
            var there := SwitchOver(n, ToRemote(env), |k.switches|);
            var k1 := StackRun(config, k, there);
            var back := SwitchOver(n, ToLocal, |k1.switches|);
            var k2 := StackRun(config, k1, back);
            var q, t := |k1.sup.requests|, |k1.sup.starts.tasks|;
            && OrderlyRun(config, k, there, n) && Registered(k1.sup, n)
            && ReadsAway(k1.sup, Entry(k1.sup, n), config.services[n], env)
            && ServedOnlyRemotely(config, k1, n)
            && OrderlyRun(config, k1, back, n) && AskedForAtHome(config, k2, n, q)
            && var s := Step(k2.sup, InstallDone(q, FINE));
               t < |s.starts.tasks| && ServiceUp(k2.sup, Run(s, CarryOn(s, t, ALL_WELL)), config.services[n])
  {
    RestInv(config, k0, n);
    RunInv(config, k0, before, n);
    var k := StackRun(config, k0, before);
    StackDetaches(config, k0, before);
    FromHomeAndBack(config, k, n, env);
    hide *;
  }

  lemma FromHomeAndBack(config: SwitchConfig, k: Stack, n: Name, env: string)
    requires Configured(config, n) && StackInv(config, k, n) && AllDetached(k.sup) && !k.sup.closing
    requires CanSwitch(config, k, n, ToRemote(env)) && Entry(k.sup, n).remote.None?
    ensures var there := SwitchOver(n, ToRemote(env), |k.switches|);
            var k1 := StackRun(config, k, there);
            var back := SwitchOver(n, ToLocal, |k1.switches|);
            var k2 := StackRun(config, k1, back);
            var q, t := |k1.sup.requests|, |k1.sup.starts.tasks|;
            && OrderlyRun(config, k, there, n) && Registered(k1.sup, n)
            && ReadsAway(k1.sup, Entry(k1.sup, n), config.services[n], env)
            && ServedOnlyRemotely(config, k1, n)
            && OrderlyRun(config, k1, back, n) && AskedForAtHome(config, k2, n, q)
            && var s := Step(k2.sup, InstallDone(q, FINE));
               t < |s.starts.tasks| && ServiceUp(k2.sup, Run(s, CarryOn(s, t, ALL_WELL)), config.services[n])
  {
    var k1 := StackRun(config, k, SwitchOver(n, ToRemote(env), |k.switches|));
    ArrivesAway(config, k, n, env);
    StackRunDetaches(config, k, SwitchOver(n, ToRemote(env), |k.switches|));
    CallKeepsOpen(config, k, n, ToRemote(env));
    hide StackRun, StackStep, OrderlyRun, StackInv, AllDetached, CanSwitch, ServedOnlyRemotely, HandsOff, Inv, Underway;
    HomeCallFrees(config, k, k1, n, env);
    ArrivesHome(config, k1, n);
    hide Step, Run, CarryOn, ServiceUp, TakenFrom;
    var k2 := StackRun(config, k1, SwitchOver(n, ToLocal, |k1.switches|));
    StartInstalls(k2.sup, |k1.sup.requests|);
  }

  // ---------------------------------------------------------------- after a switch that failed

  lemma NobodyClaims(k: Stack, n: Name)
    requires Inv(k.sup) && HandsOff(k.sup, n) && n !in k.proxies.lazy && n !in k.proxies.remote
    ensures forall port, c :: !Claims(k, n, port, c)
  {
    forall t ensures !InFlightOf(k.sup, t, n) { assert TaskOk(k.sup.starts, t); }
  }

  lemma YesWithNothingBehind(config: SwitchConfig, f: Stack, n: Name, env: string)
    requires Known(config, f, n, ToRemote(env)) && Entry(f.sup, n).remote == Some(env)
    requires Inv(f.sup) && HandsOff(f.sup, n) && n !in f.proxies.lazy && n !in f.proxies.remote
    ensures var f' := StackStep(config, f, CallSwitch(n, ToRemote(env)));
            && |f'.switches| == |f.switches| + 1 && f'.switches[|f.switches|].phase == Answered(true)
            && forall port, c :: !Claims(f', n, port, c)
  {
    CallAnswers(config, f, n, ToRemote(env));
    var f' := StackStep(config, f, CallSwitch(n, ToRemote(env)));
    hide StackStep, Inv, HandsOff, Claims;
    NobodyClaims(f', n);
  }

  /** The switch `goal` was called after `before` and is still polling after `between`, its time over. */
  ghost predicate OutOfTime(config: SwitchConfig, k: Stack, goal: Goal, between: seq<StackEvent>, n: Name)
    requires Configured(config, n)
  {
    && Orderly(config, k, CallSwitch(n, goal), n) && Acceptable(config, k, n, goal) && !AlreadyThere(k, n, goal)
    && var k1 := StackStep(config, k, CallSwitch(n, goal));
       var w := StackRun(config, k1, between);
       && OrderlyRun(config, k1, between, n) && IsPolling(w, |k.switches|) && w.switches[|k.switches|].name == n
       && w.switches[|k.switches|].phase.deadline <= w.sup.clock
  }

  lemma FailedKeeps(config: SwitchConfig, k0: Stack, before: seq<StackEvent>, goal: Goal, between: seq<StackEvent>,
                    n: Name)
    requires Configured(config, n) && AtRest(k0) && OrderlyRun(config, k0, before, n)
    requires OutOfTime(config, StackRun(config, k0, before), goal, between, n)
    ensures var k := StackRun(config, k0, before);
            var w := StackRun(config, StackStep(config, k, CallSwitch(n, goal)), between);
            Inv(StackStep(config, w, AnswerPort(|k.switches|, false)).sup)
  {
    var k := StackRun(config, k0, before);
    var k1 := StackStep(config, k, CallSwitch(n, goal));
    var w := StackRun(config, k1, between);
    RestInv(config, k0, n);
    RunInv(config, k0, before, n);
    hide StackInv, StackStep, StackRun, OrderlyRun, Orderly;
    StackStepKeeps(config, k, CallSwitch(n, goal), n);
    RunInv(config, k1, between, n);
    AnswerIs(config, w, |k.switches|);
    AnswerKeeps(config, w, |k.switches|, false, n);
    HandOf(config, PortAnswer(w, |k.switches|, false), n);
  }

  lemma AnswerIs(config: SwitchConfig, k: Stack, i: nat)
    ensures StackStep(config, k, AnswerPort(i, false)) == PortAnswer(k, i, false)
  {}

  /** The exception to a yes: after a switch away from an environment has failed, the entry still names it, so
   *  asking for it again is answered with yes at once, though no proxy, process, start or timer is left. */
  lemma AskedAgainAfterFailure(config: SwitchConfig, k0: Stack, before: seq<StackEvent>, goal: Goal,
                               between: seq<StackEvent>, n: Name, env: string)
    requires Configured(config, n) && AtRest(k0) && OrderlyRun(config, k0, before, n)
    requires OutOfTime(config, StackRun(config, k0, before), goal, between, n)
    requires Known(config, StackRun(config, k0, before), n, ToRemote(env))
    requires Entry(StackRun(config, k0, before).sup, n).remote == Some(env)
    ensures var k := StackRun(config, k0, before);
            var w := StackRun(config, StackStep(config, k, CallSwitch(n, goal)), between);
            var f := StackStep(config, w, AnswerPort(|k.switches|, false));
            var f' := StackStep(config, f, CallSwitch(n, ToRemote(env)));
            && |f'.switches| == |f.switches| + 1 && f'.switches[|f.switches|].phase == Answered(true)
            && forall port, c :: !Claims(f', n, port, c)
  {
    var k := StackRun(config, k0, before);
    var w := StackRun(config, StackStep(config, k, CallSwitch(n, goal)), between);
    FailedSwitchLeavesMarker(config, k0, before, goal, between, n);
    FailedKeeps(config, k0, before, goal, between, n);
    hide StackStep, StackRun, Inv, HandsOff, Claims, OrderlyRun, AtRest, OutOfTime;
    YesWithNothingBehind(config, StackStep(config, w, AnswerPort(|k.switches|, false)), n, env);
  }
}
