/** What a switch promises, over whole runs. */
module SwitchSafety {
  import opened Options
  import opened Supervision
  import opened SupervisionInvariants
  import opened SupervisionHistory
  import opened RestartAdvertising
  import opened Provenance
  import opened AfterSwitch
  import opened Switching
  import opened SwitchClaims

  // ---------------------------------------------------------------- one claim on the port

  lemma {:induction false} RunInv(config: SwitchConfig, k: Stack, events: seq<StackEvent>, n: Name)
    requires Configured(config, n) && StackInv(config, k, n) && OrderlyRun(config, k, events, n)
    ensures StackInv(config, StackRun(config, k, events), n)
    decreases |events|
  {
    if events != [] {
      hide StackInv, StackStep, Orderly;
      StackStepKeeps(config, k, events[0], n);
      RunInv(config, StackStep(config, k, events[0]), events[1..], n);
    }
  }

  /** A process, a start or a timer that claims the port, as seen by the one hand that the name is in. */
  lemma HandClaims(k: Stack, n: Name, port: int, c: Claim)
    requires Inv(k.sup) && OneHand(k.sup, n, false) && Claims(k, n, port, c)
    ensures c.ProcessClaim? ==> !NoLoose(k.sup, n) && Registered(k.sup, n) && Entry(k.sup, n).proc == Some(c.child)
    ensures c.StartClaim? ==> n in k.sup.starts.starting && k.sup.starts.starting[n] == c.task
    ensures c.TimerClaim? ==> n in k.sup.queue.pending && k.sup.queue.pending[n] == c.timer
  {
    if c.ProcessClaim? { assert LooseIsEntry(k.sup, n, c.child); }
    if c.StartClaim? { assert TaskOk(k.sup.starts, c.task); }
  }

  lemma ProxyClaims(config: SwitchConfig, k: Stack, n: Name, c: Claim)
    requires Configured(config, n) && StackInv(config, k, n)
    requires Claims(k, n, config.services[n].port, c) && !c.LazyClaim? && !c.RemoteClaim?
    ensures n !in k.proxies.lazy && n !in k.proxies.remote && !Underway(k.switches, n)
  {
    var port := config.services[n].port;
    match c
    case ProcessClaim(p) => assert Avoids(k.sup, n, port) ==> ProcessAvoids(k.sup, n, port, p);
    case StartClaim(t) =>
      assert Avoids(k.sup, n, port) ==> TaskAvoids(k.sup, n, port, t);
      assert TaskOk(k.sup.starts, t);
    case TimerClaim(x) => assert Avoids(k.sup, n, port) ==> TimerAvoids(k.sup, n, port, x);
  }

  lemma ClaimsCoincide(config: SwitchConfig, k: Stack, n: Name, c: Claim, d: Claim)
    requires Configured(config, n) && StackInv(config, k, n)
    requires Claims(k, n, config.services[n].port, c) && Claims(k, n, config.services[n].port, d)
    ensures c == d
  {
    if !c.LazyClaim? && !c.RemoteClaim? { ProxyClaims(config, k, n, c); }
    if !d.LazyClaim? && !d.RemoteClaim? { ProxyClaims(config, k, n, d); }
    HandClaims(k, n, config.services[n].port, c);
    HandClaims(k, n, config.services[n].port, d);
    hide Inv, Claims;
  }

  /** At every step of every run in which the callers of a service take turns, at most one of its lazy
   *  proxy, its remote proxy, a live process nobody stopped, a start in flight and a queued restart
   *  claims its configured port. */
  lemma OneClaimAtATime(config: SwitchConfig, k0: Stack, events: seq<StackEvent>, n: Name)
    requires Configured(config, n) && AtRest(k0) && OrderlyRun(config, k0, events, n)
    ensures OneClaim(StackRun(config, k0, events), n, config.services[n].port)
  {
    RestInv(config, k0, n);
    RunInv(config, k0, events, n);
    var k := StackRun(config, k0, events);
    hide StackRun, StackInv;
    forall c, d | Claims(k, n, config.services[n].port, c) && Claims(k, n, config.services[n].port, d)
      ensures c == d
    {
      ClaimsCoincide(config, k, n, c, d);
    }
  }

  // ---------------------------------------------------------------- what a call does

  /** What the program can tell apart: the services, the proxies, the sockets, and who is waiting. */
  ghost predicate LooksTheSame(k: Stack, k': Stack) {
    && k'.sup == k.sup && k'.proxies == k.proxies && k'.sockets == k.sockets
    && forall n :: Underway(k'.switches, n) <==> Underway(k.switches, n)
  }

  lemma AnswerAddsNone(k: Stack, w: Switch)
    requires w.phase.Answered?
    ensures LooksTheSame(k, k.(switches := k.switches + [w]))
  {
    var k' := k.(switches := k.switches + [w]);
    forall i, n ensures Unanswered(k'.switches, i, n) <==> Unanswered(k.switches, i, n) {}
  }

  /** Without another switch of the name under way, a call changes nothing that can be seen exactly when
   *  it is refused, for a service, environment or target nobody knows, or already where it should be. */
  lemma CallChangesNothingExactly(config: SwitchConfig, k: Stack, n: Name, goal: Goal)
    requires !Underway(k.switches, n)
    ensures var k' := StackStep(config, k, CallSwitch(n, goal));
            LooksTheSame(k, k') <==> !Acceptable(config, k, n, goal) || AlreadyThere(k, n, goal)
  {
    var k' := SwitchCall(config, k, n, goal);
    hide Release;
    if !Acceptable(config, k, n, goal) {
    } else if AlreadyThere(k, n, goal) {
      AnswerAddsNone(k, Switch(n, config.services[n], k.sup.state[n], goal, Answered(true)));
    } else {
      var w := k'.switches[|k'.switches| - 1];
      assert w.name == n && w.phase.Polling?;
      assert Unanswered(k'.switches, |k'.switches| - 1, n);
    }
  }

  /** Whoever claimed the port has let go of it when the call begins to wait, and any live process of
   *  the service has been told to stop. */
  lemma CallReleasesEverything(config: SwitchConfig, k0: Stack, events: seq<StackEvent>, n: Name, goal: Goal)
    requires Configured(config, n) && AtRest(k0) && OrderlyRun(config, k0, events, n)
    requires var k := StackRun(config, k0, events);
             Orderly(config, k, CallSwitch(n, goal), n) && Acceptable(config, k, n, goal) && !AlreadyThere(k, n, goal)
    ensures var k' := StackStep(config, StackRun(config, k0, events), CallSwitch(n, goal));
            && Underway(k'.switches, n) && n !in k'.proxies.lazy && n !in k'.proxies.remote
            && HandsOff(k'.sup, n) && AllTold(k'.sup, n)
            && forall c :: !Claims(k', n, config.services[n].port, c)
  {
    var port := config.services[n].port;
    var k := StackRun(config, k0, events);
    var k' := SwitchCall(config, k, n, goal);
    assert k' == StackStep(config, k, CallSwitch(n, goal));
    hide *;
    RestInv(config, k0, n);
    RunInv(config, k0, events, n);
    OwnCall(config, k, n, goal);
    CallWaits(config, k, n, goal);
    WaitingIsFree(config, k', n);
  }

  lemma CallWaits(config: SwitchConfig, k: Stack, n: Name, goal: Goal)
    requires Acceptable(config, k, n, goal) && !AlreadyThere(k, n, goal)
    ensures Underway(SwitchCall(config, k, n, goal).switches, n)
  {
    hide Release;
    var k' := SwitchCall(config, k, n, goal);
    assert Unanswered(k'.switches, |k'.switches| - 1, n);
  }

  lemma WaitingIsFree(config: SwitchConfig, k: Stack, n: Name)
    requires Configured(config, n) && StackInv(config, k, n) && Underway(k.switches, n)
    ensures n !in k.proxies.lazy && n !in k.proxies.remote && HandsOff(k.sup, n) && AllTold(k.sup, n)
    ensures forall c :: !Claims(k, n, config.services[n].port, c)
  {
    NoneLooseIsTold(k.sup, n);
    forall c ensures !Claims(k, n, config.services[n].port, c) {
      if Claims(k, n, config.services[n].port, c) { HandClaims(k, n, config.services[n].port, c); }
    }
  }

  /** Every live process of the name has been told to stop. */
  ghost predicate AllTold(s: Supervisor, n: Name) {
    forall p: ChildId :: Alive(s, p) && s.children[p].svc.name == n && s.children[p].row < |s.rows| ==>
      s.rows[s.children[p].row].intentionalStop
  }

  lemma NoneLooseIsTold(s: Supervisor, n: Name)
    requires NoLoose(s, n)
    ensures AllTold(s, n)
  {
    forall p: ChildId | Alive(s, p) && s.children[p].svc.name == n && s.children[p].row < |s.rows|
      ensures s.rows[s.children[p].row].intentionalStop
    {
      assert !Loose(s, p, n);
    }
  }

  // ---------------------------------------------------------------- what a commit leaves

  /** The remote proxy answers on the configured port, and nothing else of the service does or will. */
  ghost predicate ServedOnlyRemotely(config: SwitchConfig, k: Stack, n: Name)
    requires Configured(config, n)
  {
    var port := config.services[n].port;
    && Elsewhere(k.sup, n) && n in k.proxies.remote && n !in k.proxies.lazy
    && Still(k.sup, n) && AllTold(k.sup, n) && NoneBound(k, n, port)
    && forall c :: Claims(k, n, port, c) <==> c == RemoteClaim
  }

  lemma RemoteIsAlone(config: SwitchConfig, k: Stack, n: Name)
    requires Configured(config, n) && StackInv(config, k, n) && n in k.proxies.remote
    ensures ServedOnlyRemotely(config, k, n)
  {
    var port := config.services[n].port;
    NoneLooseIsTold(k.sup, n);
    forall c ensures Claims(k, n, port, c) <==> c == RemoteClaim {
      assert Claims(k, n, port, RemoteClaim);
      if Claims(k, n, port, c) { ClaimsCoincide(config, k, n, c, RemoteClaim); }
    }
  }

  lemma PlaceTransitive(a: Supervisor, b: Supervisor, c: Supervisor, n: Name)
    requires SamePlace(a, b, n) && NoneSpawned(a, b, n) && SamePlace(b, c, n) && NoneSpawned(b, c, n) && Ages(b, c)
    ensures SamePlace(a, c, n) && NoneSpawned(a, c, n)
  {
    forall p | |a.children| <= p < |c.children| ensures c.children[p].svc.name != n {
      if p < |b.children| { assert ChildAged(b.children, c.children, p); }
    }
  }

  /** The service is neither started nor moved by the step. */
  predicate StaysPut(s: Supervisor, s': Supervisor, n: Name) {
    SamePlace(s, s', n) && NoneSpawned(s, s', n)
  }

  lemma SupStaysPut(config: SwitchConfig, k: Stack, e: Event, n: Name)
    requires Configured(config, n) && StackInv(config, k, n) && (n in k.proxies.remote || Underway(k.switches, n))
    requires Behaves(e, n, config.services[n].port, n in k.proxies.lazy, Underway(k.switches, n))
    requires !(e.RemoveCall? && e.name == n)
    ensures StaysPut(k.sup, Step(k.sup, e), n)
  {
    var s := k.sup;
    if n in k.proxies.remote {
      ElsewhereStep(s, e, n);
    } else {
      SourcesWhenWaiting(s, e, n, config.services[n].port, n in k.proxies.lazy);
      StepComesFrom(s, e, n);
      hide Step, Inv;
      StaysInPlace(s, Step(s, e), n, NOTHING);
    }
  }

  lemma TwoStayPut(config: SwitchConfig, k: Stack, x: Event, y: Event, n: Name)
    requires Configured(config, n) && StackInv(config, k, n) && (n in k.proxies.remote || Underway(k.switches, n))
    requires Turns(k.sup, x, n) && Behaves(x, n, config.services[n].port, n in k.proxies.lazy, Underway(k.switches, n))
    requires Behaves(y, n, config.services[n].port, n in k.proxies.lazy, Underway(k.switches, n))
    requires !(x.RemoveCall? && x.name == n) && !(y.RemoveCall? && y.name == n)
    ensures StaysPut(k.sup, Step(Step(k.sup, x), y), n)
  {
    hide StackInv, Step, Turns, Behaves;
    var k1 := k.(sup := Step(k.sup, x));
    SupStaysPut(config, k, x, n);
    SupervisorMoves(config, k, x, n);
    SupStaysPut(config, k1, y, n);
    StepAges(k1.sup, y);
    PlaceTransitive(k.sup, k1.sup, Step(k1.sup, y), n);
  }

  /** The name is called to another place, taken out of the registry, or arrives where it was sent. */
  predicate TakenAway(k: Stack, e: StackEvent, n: Name) {
    || (e.CallSwitch? && e.name == n)
    || (e.Supervise? && e.e.RemoveCall? && e.e.name == n)
    || (e.CommitSwitch? && e.switch < |k.switches| && k.switches[e.switch].name == n)
  }

  lemma UnchangedStaysPut(s: Supervisor, n: Name)
    requires Registered(s, n)
    ensures StaysPut(s, s, n)
  {}

  lemma RegisteredThen(config: SwitchConfig, k: Stack, n: Name)
    requires Configured(config, n) && StackInv(config, k, n) && (n in k.proxies.remote || Underway(k.switches, n))
    ensures Registered(k.sup, n)
  {}

  /** What concerns another name needs no turn-taking of this one. */
  lemma OthersBehave(s: Supervisor, e: Event, m: Name, n: Name, port: int, lazy: bool, waiting: bool)
    requires m != n
    requires e == CancelCall(m) || e == StopCall(m) || e == StartServiceCall(m)
          || ((e.RemoteCommit? || e.LocalCommit?) && e.svc.name == m)
    ensures Turns(s, e, n) && Behaves(e, n, port, lazy, waiting)
  {}

  lemma OthersStayPut(config: SwitchConfig, k: Stack, x: Event, y: Event, m: Name, n: Name)
    requires Configured(config, n) && StackInv(config, k, n) && (n in k.proxies.remote || Underway(k.switches, n))
    requires m != n
    requires (x == CancelCall(m) && y == StopCall(m))
          || ((x.RemoteCommit? || x.LocalCommit?) && x.svc.name == m && y == StartServiceCall(m))
    ensures StaysPut(k.sup, Step(k.sup, x), n) && StaysPut(k.sup, Step(Step(k.sup, x), y), n)
  {
    var port := config.services[n].port;
    hide *;
    OthersBehave(k.sup, x, m, n, port, n in k.proxies.lazy, Underway(k.switches, n));
    OthersBehave(k.sup, y, m, n, port, n in k.proxies.lazy, Underway(k.switches, n));
    SupStaysPut(config, k, x, n);
    TwoStayPut(config, k, x, y, n);
  }

  /** All that a call does to the supervisor. */
  lemma CallOnSupervisor(config: SwitchConfig, k: Stack, m: Name, goal: Goal)
    ensures var sup := SwitchCall(config, k, m, goal).sup;
            sup == k.sup || sup == Step(Step(k.sup, CancelCall(m)), StopCall(m))
  {
    hide Step, CancelRestart, StopService;
    StepIs(k.sup, CancelCall(m));
    StepIs(CancelRestart(k.sup, m), StopCall(m));
  }

  lemma OtherCallStaysPut(config: SwitchConfig, k: Stack, m: Name, goal: Goal, n: Name)
    requires Configured(config, n) && StackInv(config, k, n) && (n in k.proxies.remote || Underway(k.switches, n))
    requires m != n
    ensures StaysPut(k.sup, SwitchCall(config, k, m, goal).sup, n)
  {
    hide *;
    RegisteredThen(config, k, n);
    UnchangedStaysPut(k.sup, n);
    CallOnSupervisor(config, k, m, goal);
    OthersStayPut(config, k, CancelCall(m), StopCall(m), m, n);
  }

  lemma OwnSvc(config: SwitchConfig, k: Stack, i: nat, n: Name)
    requires Configured(config, n) && StackInv(config, k, n) && i < |k.switches|
    ensures k.switches[i].svc.name == k.switches[i].name
  {
    assert SwitchOk(config, k, n, i);
  }

  lemma OtherCommitStaysPut(config: SwitchConfig, k: Stack, i: nat, n: Name)
    requires Configured(config, n) && StackInv(config, k, n) && (n in k.proxies.remote || Underway(k.switches, n))
    requires IsCleared(k, i) && k.switches[i].name != n
    ensures StaysPut(k.sup, Commit(k, i).sup, n)
  {
    var w := k.switches[i];
    hide StackInv, OnRemoteCommit, OnLocalCommit, OnStartService, StaysPut, Underway, Configured;
    OwnSvc(config, k, i, n);
    if w.goal.ToRemote? { OtherRemoteStaysPut(config, k, w.row, w.svc, w.goal.env, w.name, n); }
    else { OtherLocalStaysPut(config, k, w.row, w.svc, w.name, n); }
  }

  lemma OtherRemoteStaysPut(config: SwitchConfig, k: Stack, r: RowId, svc: ServiceConfig, env: string, m: Name, n: Name)
    requires Configured(config, n) && StackInv(config, k, n) && (n in k.proxies.remote || Underway(k.switches, n))
    requires svc.name == m && m != n
    ensures StaysPut(k.sup, OnRemoteCommit(k.sup, r, svc, env), n)
  {
    hide *;
    StepIs(k.sup, RemoteCommit(r, svc, env));
    OthersStayPut(config, k, RemoteCommit(r, svc, env), StartServiceCall(m), m, n);
  }

  lemma OtherLocalStaysPut(config: SwitchConfig, k: Stack, r: RowId, svc: ServiceConfig, m: Name, n: Name)
    requires Configured(config, n) && StackInv(config, k, n) && (n in k.proxies.remote || Underway(k.switches, n))
    requires svc.name == m && m != n
    ensures StaysPut(k.sup, OnStartService(OnLocalCommit(k.sup, r, svc), m), n)
  {
    hide *;
    StepIs(k.sup, LocalCommit(r, svc));
    StepIs(OnLocalCommit(k.sup, r, svc), StartServiceCall(m));
    OthersStayPut(config, k, LocalCommit(r, svc), StartServiceCall(m), m, n);
  }

  lemma BootStaysPut(config: SwitchConfig, k: Stack, e: StackEvent, n: Name)
    requires Configured(config, n) && StackInv(config, k, n) && (n in k.proxies.remote || Underway(k.switches, n))
    requires (e.BootLazy? || e.BootRemote?) && Orderly(config, k, e, n)
    ensures StaysPut(k.sup, StackStep(config, k, e).sup, n)
  {
    hide StackInv, Step, OnRegisterLazy, OnRegisterRemote, StaysPut;
    RegisteredThen(config, k, n);
    UnchangedStaysPut(k.sup, n);
    assert e.name != n;
    if Configured(config, e.name) {
      var svc := config.services[e.name];
      var x := if e.BootLazy? then RegisterLazyCall(svc.(port := svc.port + LAZY_PORT_OFFSET))
               else RegisterRemoteCall(svc, e.env);
      StepIs(k.sup, x);
      SupStaysPut(config, k, x, n);
    }
  }

  /** While a service is served remotely, or a switch of it waits, no step starts it or moves its row. */
  lemma StackStaysPut(config: SwitchConfig, k: Stack, e: StackEvent, n: Name)
    requires Configured(config, n) && StackInv(config, k, n) && Orderly(config, k, e, n)
    requires n in k.proxies.remote || Underway(k.switches, n)
    requires !TakenAway(k, e, n)
    ensures StaysPut(k.sup, StackStep(config, k, e).sup, n)
  {
    RegisteredThen(config, k, n);
    UnchangedStaysPut(k.sup, n);
    match e
    case Supervise(x) =>
      if !MovesProxies(x) {
        PoliteBehaves(config, k, x, n);
        hide StackInv, Step, StaysPut, Behaves, Polite, Turns;
        SupStaysPut(config, k, x, n);
      }
    case BootLazy(m) => BootStaysPut(config, k, e, n);
    case BootRemote(m, env) => BootStaysPut(config, k, e, n);
    case CallSwitch(m, goal) => OtherCallStaysPut(config, k, m, goal, n);
    case CommitSwitch(i) => if IsCleared(k, i) { OtherCommitStaysPut(config, k, i, n); }
    case _ =>
  }

  lemma ProxyStays(config: SwitchConfig, k: Stack, e: StackEvent, n: Name)
    requires Configured(config, n) && StackInv(config, k, n) && Orderly(config, k, e, n)
    requires n in k.proxies.remote && !TakenAway(k, e, n)
    ensures var k' := StackStep(config, k, e); n in k'.proxies.remote && k'.proxies.remote[n] == k.proxies.remote[n]
  {
    RegisteredThen(config, k, n);
    hide StackInv, Step, Turns, Polite, OnRegisterLazy, OnRegisterRemote, OnRemoteCommit, OnLocalCommit, OnStartService,
         Bindable, StopService, CancelRestart;
  }

  predicate LeftAway(config: SwitchConfig, k: Stack, events: seq<StackEvent>, n: Name)
    decreases |events|
  {
    events != [] ==> !TakenAway(k, events[0], n) && LeftAway(config, StackStep(config, k, events[0]), events[1..], n)
  }

  lemma {:induction false} RunStaysAway(config: SwitchConfig, k: Stack, events: seq<StackEvent>, n: Name)
    requires Configured(config, n) && StackInv(config, k, n) && n in k.proxies.remote
    requires OrderlyRun(config, k, events, n) && LeftAway(config, k, events, n)
    ensures var f := StackRun(config, k, events);
            && StackInv(config, f, n) && StaysPut(k.sup, f.sup, n)
            && n in f.proxies.remote && f.proxies.remote[n] == k.proxies.remote[n]
    decreases |events|
  {
    if events == [] {
      RegisteredThen(config, k, n);
      UnchangedStaysPut(k.sup, n);
    } else {
      var k1 := StackStep(config, k, events[0]);
      hide StackInv, StackStep, Orderly, TakenAway;
      StackStepKeeps(config, k, events[0], n);
      StackStaysPut(config, k, events[0], n);
      ProxyStays(config, k, events[0], n);
      RunStaysAway(config, k1, events[1..], n);
      StackRunAges(config, k1, events[1..]);
      PlaceTransitive(k.sup, k1.sup, StackRun(config, k, events).sup, n);
    }
  }

  // ---------------------------------------------------------------- a stack is a supervisor

  /** What an event of the stack is for the supervisor. */
  function SupervisorEvents(config: SwitchConfig, k: Stack, e: StackEvent): seq<Event> {
    match e
    case Supervise(x) => if MovesProxies(x) then [] else [x]
    case BootLazy(n) =>
      if Configured(config, n)
      then [RegisterLazyCall(config.services[n].(port := config.services[n].port + LAZY_PORT_OFFSET))] else []
    case BootRemote(n, env) => if Configured(config, n) then [RegisterRemoteCall(config.services[n], env)] else []
    case CallSwitch(n, goal) =>
      if Acceptable(config, k, n, goal) && !AlreadyThere(k, n, goal) && goal.ToRemote?
      then [CancelCall(n), StopCall(n)] else []
    case CommitSwitch(i) =>
      if !IsCleared(k, i) then []
      else
        var w := k.switches[i];
        (match w.goal
         case ToRemote(env) => [RemoteCommit(w.row, w.svc, env)]
         case ToLocal => [LocalCommit(w.row, w.svc), StartServiceCall(w.name)])
    case _ => []
  }

  lemma OneEventRuns(s: Supervisor, e: Event)
    ensures Run(s, [e]) == Step(s, e)
  {
    hide Step;
    assert [e][1..] == [];
  }

  lemma TwoEventsRun(s: Supervisor, x: Event, y: Event)
    ensures Run(s, [x, y]) == Step(Step(s, x), y)
  {
    hide Step;
    assert [x, y][1..] == [y];
    OneEventRuns(Step(s, x), y);
  }

  lemma CommitOnSupervisor(config: SwitchConfig, k: Stack, i: nat)
    requires IsCleared(k, i)
    ensures Commit(k, i).sup == Run(k.sup, SupervisorEvents(config, k, CommitSwitch(i)))
  {
    var w := k.switches[i];
    hide Run, Step, OnRemoteCommit, OnLocalCommit, OnStartService;
    if w.goal.ToRemote? { RemoteCommitRuns(k.sup, w.row, w.svc, w.goal.env); }
    else { LocalCommitRuns(k.sup, w.row, w.svc, w.name); }
  }

  lemma RemoteCommitRuns(s: Supervisor, r: RowId, svc: ServiceConfig, env: string)
    ensures OnRemoteCommit(s, r, svc, env) == Run(s, [RemoteCommit(r, svc, env)])
  {
    hide *;
    StepIs(s, RemoteCommit(r, svc, env));
    OneEventRuns(s, RemoteCommit(r, svc, env));
  }

  lemma LocalCommitRuns(s: Supervisor, r: RowId, svc: ServiceConfig, n: Name)
    ensures OnStartService(OnLocalCommit(s, r, svc), n) == Run(s, [LocalCommit(r, svc), StartServiceCall(n)])
  {
    hide *;
    StepIs(s, LocalCommit(r, svc));
    StepIs(OnLocalCommit(s, r, svc), StartServiceCall(n));
    TwoEventsRun(s, LocalCommit(r, svc), StartServiceCall(n));
  }

  lemma BootOnSupervisor(config: SwitchConfig, k: Stack, e: StackEvent)
    requires e.BootLazy? || e.BootRemote?
    ensures StackStep(config, k, e).sup == Run(k.sup, SupervisorEvents(config, k, e))
  {
    if Configured(config, e.name) {
      var x := SupervisorEvents(config, k, e)[0];
      StepIs(k.sup, x);
      OneEventRuns(k.sup, x);
      hide Run, Step, OnRegisterLazy, OnRegisterRemote;
    }
  }

  lemma CallRuns(config: SwitchConfig, k: Stack, n: Name, goal: Goal)
    ensures SwitchCall(config, k, n, goal).sup == Run(k.sup, SupervisorEvents(config, k, CallSwitch(n, goal)))
  {
    TwoEventsRun(k.sup, CancelCall(n), StopCall(n));
    hide Step, CancelRestart, StopService;
    StepIs(k.sup, CancelCall(n));
    StepIs(CancelRestart(k.sup, n), StopCall(n));
  }

  /** A step of the stack is a run of the supervisor. */
  lemma OnSupervisor(config: SwitchConfig, k: Stack, e: StackEvent)
    ensures StackStep(config, k, e).sup == Run(k.sup, SupervisorEvents(config, k, e))
  {
    match e
    case Supervise(x) => OneEventRuns(k.sup, x); hide Step;
    case BootLazy(n) => BootOnSupervisor(config, k, e);
    case BootRemote(n, env) => BootOnSupervisor(config, k, e);
    case CallSwitch(n, goal) => CallRuns(config, k, n, goal);
    case CommitSwitch(i) => if IsCleared(k, i) { CommitOnSupervisor(config, k, i); }
    case _ =>
  }

  function SupervisorRun(config: SwitchConfig, k: Stack, events: seq<StackEvent>): seq<Event>
    decreases |events|
  {
    if events == [] then []
    else SupervisorEvents(config, k, events[0]) + SupervisorRun(config, StackStep(config, k, events[0]), events[1..])
  }

  lemma {:induction false} RunOfSum(s: Supervisor, a: seq<Event>, b: seq<Event>)
    ensures Run(s, a + b) == Run(Run(s, a), b)
    decreases |a|
  {
    hide Step;
    if a == [] {
      assert a + b == b;
    } else {
      assert (a + b)[1..] == a[1..] + b;
      RunOfSum(Step(s, a[0]), a[1..], b);
    }
  }

  /** Every run of the stack is a run of the supervisor, so what holds in all its runs holds here. */
  lemma {:induction false} StackRunIsRun(config: SwitchConfig, k: Stack, events: seq<StackEvent>)
    ensures StackRun(config, k, events).sup == Run(k.sup, SupervisorRun(config, k, events))
    decreases |events|
  {
    if events != [] {
      var k1 := StackStep(config, k, events[0]);
      hide StackStep, SupervisorEvents;
      OnSupervisor(config, k, events[0]);
      StackRunIsRun(config, k1, events[1..]);
      RunOfSum(k.sup, SupervisorEvents(config, k, events[0]), SupervisorRun(config, k1, events[1..]));
    }
  }

  lemma StackRunAges(config: SwitchConfig, k: Stack, events: seq<StackEvent>)
    ensures Ages(k.sup, StackRun(config, k, events).sup)
  {
    hide *;
    StackRunIsRun(config, k, events);
    RunAges(k.sup, SupervisorRun(config, k, events));
  }

  /** A switch to an environment that takes the port: at that moment every live process of the service
   *  has been told to stop and none listens on the port, no lazy proxy, start, queued restart or
   *  request is left, and the proxy is the one claim.  So it stays, on the same row and with no process
   *  spawned, whatever happens in turn until the service is called back or removed. */
  lemma CommitTakesThePort(config: SwitchConfig, k0: Stack, before: seq<StackEvent>, i: nat, later: seq<StackEvent>,
                           n: Name)
    requires Configured(config, n) && AtRest(k0) && OrderlyRun(config, k0, before, n)
    requires var k := StackRun(config, k0, before);
             && IsCleared(k, i) && k.switches[i].name == n && k.switches[i].goal.ToRemote?
             && var k1 := StackStep(config, k, CommitSwitch(i));
                OrderlyRun(config, k1, later, n) && LeftAway(config, k1, later, n)
    ensures var k := StackRun(config, k0, before);
            var k1 := StackStep(config, k, CommitSwitch(i));
            var f := StackRun(config, k1, later);
            && ServedOnlyRemotely(config, k1, n) && NoOpen(k1.sup, n)
            && ServedOnlyRemotely(config, f, n) && StaysPut(k1.sup, f.sup, n)
            && Entry(f.sup, n).remote == Some(k.switches[i].goal.env)
            && f.proxies.remote[n] == RemoteProxy(config.services[n].port, k.switches[i].goal.env)
  {
    RestInv(config, k0, n);
    RunInv(config, k0, before, n);
    var k := StackRun(config, k0, before);
    CommitsRemote(config, k, i, n);
    var k1 := StackStep(config, k, CommitSwitch(i));
    assert k1 == Commit(k, i);
    hide StackRun, StackInv, Commit, StackStep;
    RemoteIsAlone(config, k1, n);
    RunStaysAway(config, k1, later, n);
    RemoteIsAlone(config, StackRun(config, k1, later), n);
  }

  // ---------------------------------------------------------------- a switch that fails

  /** Switches are never forgotten, and an answer is final. */
  lemma SwitchesGoOn(config: SwitchConfig, k: Stack, e: StackEvent, i: nat, n: Name)
    requires i < |k.switches|
    ensures var k' := StackStep(config, k, e);
            i < |k'.switches| && (Unanswered(k'.switches, i, n) ==> Unanswered(k.switches, i, n))
  {
    hide Step, OnRegisterLazy, OnRegisterRemote, OnRemoteCommit, OnLocalCommit, OnStartService, Bindable, StopService,
         CancelRestart;
  }

  lemma OwnCommitAnswers(config: SwitchConfig, k: Stack, i: nat, j: nat, n: Name)
    requires Configured(config, n) && StackInv(config, k, n) && Unanswered(k.switches, i, n)
    requires j < |k.switches| && k.switches[j].name == n
    ensures Commit(k, j) == k || !Unanswered(Commit(k, j).switches, i, n)
  {
    assert SwitchOk(config, k, n, i);
    assert IsCleared(k, j) ==> Unanswered(k.switches, j, n);
    hide StackInv, OnRemoteCommit, OnLocalCommit, OnStartService;
  }

  lemma WaitStaysPut(config: SwitchConfig, k: Stack, e: StackEvent, i: nat, n: Name)
    requires Configured(config, n) && StackInv(config, k, n) && Orderly(config, k, e, n)
    requires Unanswered(k.switches, i, n) && Unanswered(StackStep(config, k, e).switches, i, n)
    ensures StaysPut(k.sup, StackStep(config, k, e).sup, n)
  {
    assert Underway(k.switches, n);
    RegisteredThen(config, k, n);
    UnchangedStaysPut(k.sup, n);
    if e.CommitSwitch? && e.switch < |k.switches| && k.switches[e.switch].name == n {
      OwnCommitAnswers(config, k, i, e.switch, n);
    } else {
      assert !TakenAway(k, e, n);
      hide StackInv, StackStep, Orderly;
      StackStaysPut(config, k, e, n);
    }
  }

  lemma {:induction false} AnsweredStays(config: SwitchConfig, k: Stack, events: seq<StackEvent>, i: nat, n: Name)
    requires i < |k.switches| && Unanswered(StackRun(config, k, events).switches, i, n)
    ensures Unanswered(k.switches, i, n)
    decreases |events|
  {
    if events != [] {
      hide StackStep, Unanswered;
      SwitchesGoOn(config, k, events[0], i, n);
      AnsweredStays(config, StackStep(config, k, events[0]), events[1..], i, n);
    }
  }

  lemma {:induction false} RunWaits(config: SwitchConfig, k: Stack, events: seq<StackEvent>, i: nat, n: Name)
    requires Configured(config, n) && StackInv(config, k, n) && OrderlyRun(config, k, events, n)
    requires Unanswered(k.switches, i, n) && Unanswered(StackRun(config, k, events).switches, i, n)
    ensures StackInv(config, StackRun(config, k, events), n) && StaysPut(k.sup, StackRun(config, k, events).sup, n)
    decreases |events|
  {
    if events == [] {
      assert Underway(k.switches, n);
      RegisteredThen(config, k, n);
      UnchangedStaysPut(k.sup, n);
    } else {
      var k1 := StackStep(config, k, events[0]);
      assert i < |k.switches|;
      hide StackInv, StackStep, Orderly, Unanswered;
      SwitchesGoOn(config, k, events[0], i, n);
      AnsweredStays(config, k1, events[1..], i, n);
      StackStepKeeps(config, k, events[0], n);
      WaitStaysPut(config, k, events[0], i, n);
      RunWaits(config, k1, events[1..], i, n);
      StackRunAges(config, k1, events[1..]);
      PlaceTransitive(k.sup, k1.sup, StackRun(config, k, events).sup, n);
    }
  }

  /** A switch whose port is still held at the deadline, by whoever it is, a draining process of the
   *  service included: the service has been let go of, and its row says what it said before.  So a
   *  service that was to move from one environment to another, or back, is shown as served by a proxy that
   *  no longer exists. */
  lemma FailedSwitchLeavesMarker(config: SwitchConfig, k0: Stack, before: seq<StackEvent>, goal: Goal,
                                 between: seq<StackEvent>, n: Name)
    requires Configured(config, n) && AtRest(k0) && OrderlyRun(config, k0, before, n)
    requires var k := StackRun(config, k0, before);
             && Orderly(config, k, CallSwitch(n, goal), n) && Acceptable(config, k, n, goal)
               && !AlreadyThere(k, n, goal)
             && var k1 := StackStep(config, k, CallSwitch(n, goal));
                var w := StackRun(config, k1, between);
                && OrderlyRun(config, k1, between, n) && IsPolling(w, |k.switches|)
                  && w.switches[|k.switches|].name == n
                && w.switches[|k.switches|].phase.deadline <= w.sup.clock
    ensures var k := StackRun(config, k0, before);
            var w := StackRun(config, StackStep(config, k, CallSwitch(n, goal)), between);
            var f := StackStep(config, w, AnswerPort(|k.switches|, false));
            && |k.switches| < |f.switches| && f.switches[|k.switches|].phase == Answered(false)
            && SamePlace(k.sup, f.sup, n) && HandsOff(f.sup, n) && n !in f.proxies.lazy && n !in f.proxies.remote
  {
    RestInv(config, k0, n);
    RunInv(config, k0, before, n);
    var k := StackRun(config, k0, before);
    var i := |k.switches|;
    var k1 := StackStep(config, k, CallSwitch(n, goal));
    assert k1 == SwitchCall(config, k, n, goal);
    OwnCall(config, k, n, goal);
    CallKeepsPlace(config, k, n, goal);
    hide StackRun, StackInv, StackStep, SwitchCall, Orderly;
    var w := StackRun(config, k1, between);
    RunWaits(config, k1, between, i, n);
    DeadlinePasses(config, w, i, n);
  }

  lemma CallKeepsPlace(config: SwitchConfig, k: Stack, n: Name, goal: Goal)
    requires Configured(config, n) && StackInv(config, k, n) && Orderly(config, k, CallSwitch(n, goal), n)
    requires Acceptable(config, k, n, goal) && !AlreadyThere(k, n, goal)
    ensures var k1 := SwitchCall(config, k, n, goal);
            SamePlace(k.sup, k1.sup, n) && Unanswered(k1.switches, |k.switches|, n)
  {
    ReleaseLeavesNothing(k.sup, n);
    hide StopService, CancelRestart, StackInv;
  }

  lemma DeadlinePasses(config: SwitchConfig, w: Stack, i: nat, n: Name)
    requires Configured(config, n) && StackInv(config, w, n) && IsPolling(w, i) && w.switches[i].name == n
    requires w.switches[i].phase.deadline <= w.sup.clock
    ensures var f := StackStep(config, w, AnswerPort(i, false));
            && i < |f.switches| && f.switches[i].phase == Answered(false) && f.sup == w.sup
            && HandsOff(f.sup, n) && n !in f.proxies.lazy && n !in f.proxies.remote
  {
    assert Unanswered(w.switches, i, n);
  }

  // ---------------------------------------------------------------- late events of the old process

  /** At the commit of a switch to an environment: the row is safe from its old process for good exactly
   *  when that process is spent and no startup timer of the row is armed. */
  lemma QuietAtCommitExactlyWhenSpent(config: SwitchConfig, k0: Stack, before: seq<StackEvent>, i: nat, n: Name)
    requires Configured(config, n) && AtRest(k0) && OrderlyRun(config, k0, before, n)
    requires var k := StackRun(config, k0, before);
             IsCleared(k, i) && k.switches[i].name == n && k.switches[i].goal.ToRemote?
    ensures var k := StackRun(config, k0, before);
            var s, r := StackStep(config, k, CommitSwitch(i)).sup, k.switches[i].row;
            JustSwitched(s, r) && r < |s.rows| && (QuietForGood(s, r) <==> Spent(s, r))
  {
    RestInv(config, k0, n);
    RunInv(config, k0, before, n);
    var k := StackRun(config, k0, before);
    CommitsRemote(config, k, i, n);
    var k1 := StackStep(config, k, CommitSwitch(i));
    assert k1 == Commit(k, i);
    RowJustSwitched(config, k, i, n);
    hide StackRun, Commit, StackStep, JustSwitched;
    QuietExactlyWhenSpent(k1.sup, k.switches[i].row);
  }

  lemma RowJustSwitched(config: SwitchConfig, k: Stack, i: nat, n: Name)
    requires Configured(config, n) && StackInv(config, k, n) && IsCleared(k, i) && k.switches[i].name == n
    requires k.switches[i].goal.ToRemote?
    ensures JustSwitched(Commit(k, i).sup, k.switches[i].row)
  {
    assert SwitchOk(config, k, n, i) && Unanswered(k.switches, i, n) && StateOk(k.sup.rows, k.sup.state, n);
  }

  // ---------------------------------------------------------------- what switches have captured

  /** A row that a switch captured is, and stays, that of its service. */
  ghost predicate RowsCaptured(k: Stack) {
    forall i :: 0 <= i < |k.switches| ==>
      var w := k.switches[i];
      w.svc.name == w.name && w.row < |k.sup.rows| && k.sup.rows[w.row].svc.name == w.name
  }

  ghost predicate SameNames(s: Supervisor, s': Supervisor) {
    |s.rows| <= |s'.rows| && forall r :: 0 <= r < |s.rows| ==> s'.rows[r].svc.name == s.rows[r].svc.name
  }

  lemma NamesStay(s: Supervisor, e: Event)
    requires Inv(s)
    ensures Inv(Step(s, e)) && SameNames(s, Step(s, e))
  {
    StepKeeps(s, e);
    var s' := Step(s, e);
    StepComesFrom(s, e, "");
    hide Inv, Step, Sources;
    assert EntryFrom(s, s', "", Sources(s, e, ""));
    forall r | 0 <= r < |s.rows| ensures s'.rows[r].svc.name == s.rows[r].svc.name {
      StepComesFrom(s, e, s.rows[r].svc.name);
      assert RowFrom(s, s', s.rows[r].svc.name, Sources(s, e, s.rows[r].svc.name), r);
    }
  }

  lemma {:induction false} RunNamesStay(s: Supervisor, events: seq<Event>)
    requires Inv(s)
    ensures Inv(Run(s, events)) && SameNames(s, Run(s, events))
    decreases |events|
  {
    hide Inv, Step;
    if events != [] {
      NamesStay(s, events[0]);
      RunNamesStay(Step(s, events[0]), events[1..]);
    }
  }

  lemma StackNamesStay(config: SwitchConfig, k: Stack, e: StackEvent)
    requires Inv(k.sup)
    ensures Inv(StackStep(config, k, e).sup) && SameNames(k.sup, StackStep(config, k, e).sup)
  {
    hide *;
    OnSupervisor(config, k, e);
    RunNamesStay(k.sup, SupervisorEvents(config, k, e));
  }

  /** A call captures the row of its service. */
  lemma CallCaptures(config: SwitchConfig, k: Stack, n: Name, goal: Goal)
    requires Inv(k.sup) && RowsCaptured(k) && SameNames(k.sup, SwitchCall(config, k, n, goal).sup)
    ensures RowsCaptured(SwitchCall(config, k, n, goal))
  {
    assert StateOk(k.sup.rows, k.sup.state, n);
    hide Inv, StopService, CancelRestart;
  }

  /** Other events add no switch and keep what the switches captured. */
  lemma SwitchesKept(config: SwitchConfig, k: Stack, e: StackEvent, i: nat)
    requires !e.CallSwitch? && i < |k.switches|
    ensures var k' := StackStep(config, k, e);
            && |k'.switches| == |k.switches| && k'.switches[i].name == k.switches[i].name
            && k'.switches[i].svc == k.switches[i].svc && k'.switches[i].row == k.switches[i].row
  {
    hide Step, OnRegisterLazy, OnRegisterRemote, OnRemoteCommit, OnLocalCommit, OnStartService, Bindable;
  }

  lemma NoSwitchAppears(config: SwitchConfig, k: Stack, e: StackEvent)
    requires !e.CallSwitch?
    ensures |StackStep(config, k, e).switches| == |k.switches|
  {
    hide Step, OnRegisterLazy, OnRegisterRemote, OnRemoteCommit, OnLocalCommit, OnStartService, Bindable;
  }

  lemma CapturedStays(config: SwitchConfig, k: Stack, e: StackEvent)
    requires Inv(k.sup) && RowsCaptured(k)
    ensures Inv(StackStep(config, k, e).sup) && RowsCaptured(StackStep(config, k, e))
  {
    StackNamesStay(config, k, e);
    if e.CallSwitch? {
      hide Inv;
      CallCaptures(config, k, e.name, e.goal);
    } else {
      hide StackStep, Inv;
      NoSwitchAppears(config, k, e);
      var k' := StackStep(config, k, e);
      forall i | 0 <= i < |k'.switches|
        ensures var w := k'.switches[i];
                w.svc.name == w.name && w.row < |k'.sup.rows| && k'.sup.rows[w.row].svc.name == w.name
      {
        SwitchesKept(config, k, e, i);
      }
    }
  }

  /** The operating system does not say that a port is free when it is not. */
  predicate Honest(k: Stack, e: StackEvent) {
    e.AnswerPort? && e.free && IsPolling(k, e.switch) ==> Bindable(k, k.switches[e.switch].svc.port)
  }

  predicate HonestRun(config: SwitchConfig, k: Stack, events: seq<StackEvent>)
    decreases |events|
  {
    events != [] ==> Honest(k, events[0]) && HonestRun(config, StackStep(config, k, events[0]), events[1..])
  }
}
