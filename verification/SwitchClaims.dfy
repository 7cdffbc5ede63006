/** One owner of the port at a time.
 *
 *  When the callers of a service take turns, at most one of its lazy proxy, its remote proxy, a live
 *  process nobody stopped, a start in flight and a queued restart claims its configured port, at every
 *  step of every run; and a switch to an environment that has taken the port leaves no other claim
 *  behind until the service is taken back. */
module SwitchClaims {
  import opened Options
  import opened Supervision
  import opened SupervisionInvariants
  import opened SupervisionHistory
  import opened RestartAdvertising
  import opened Provenance
  import opened AfterSwitch
  import opened Switching

  // ---------------------------------------------------------------- the supervisor's side

  /** Nothing of the name runs, starts or is queued; a request may be open. */
  ghost predicate Still(s: Supervisor, n: Name) {
    && n !in s.starts.starting && n !in s.queue.pending && NoLoose(s, n) && forall k :: !TimerFor(s, n, k)
  }

  predicate ProcessAvoids(s: Supervisor, n: Name, port: int, p: int) {
    Loose(s, p, n) ==> s.children[p].svc.port != port
  }

  predicate TaskAvoids(s: Supervisor, n: Name, port: int, t: int) {
    InFlightOf(s, t, n) ==> s.starts.tasks[t].svc.port != port
  }

  predicate TimerAvoids(s: Supervisor, n: Name, port: int, k: int) {
    TimerFor(s, n, k) ==> s.queue.timers[k].svc.port != port
  }

  predicate RequestAvoids(s: Supervisor, n: Name, port: int, q: int) {
    Open(s, q, n) && s.requests[q].row < |s.rows| ==> s.rows[s.requests[q].row].svc.port != port
  }

  /** Nothing that lives, starts, is queued or is asked for under the name is on this port. */
  ghost predicate Avoids(s: Supervisor, n: Name, port: int) {
    && (Registered(s, n) ==> Entry(s, n).svc.port != port)
    && (forall p :: ProcessAvoids(s, n, port, p))
    && (forall t :: TaskAvoids(s, n, port, t))
    && (forall k :: TimerAvoids(s, n, port, k))
    && (forall q :: RequestAvoids(s, n, port, q))
  }

  /** What the supervisor keeps of a name while its callers take turns: one hand at most, none while it
   *  is served remotely or a switch waits, and none on the configured port behind a lazy proxy. */
  ghost predicate Held(s: Supervisor, n: Name, port: int, lazy: bool, waiting: bool) {
    && Inv(s) && OneHand(s, n, false)
    && (Elsewhere(s, n) ==> Still(s, n))
    && (lazy ==> Registered(s, n) && !Elsewhere(s, n) && Avoids(s, n, port))
    && (waiting ==> Registered(s, n) && HandsOff(s, n))
  }

  /** What an event must not do meanwhile. */
  predicate Behaves(e: Event, n: Name, port: int, lazy: bool, waiting: bool) {
    && (MovesProxies(e) ==> e.svc.name != n)
    && (waiting ==>
          && !(e.StartCall? && e.svc.name == n)
          && !((e.StartServiceCall? || e.RestartServiceCall? || e.RemoveCall?) && e.name == n))
    && (lazy && e.StartCall? && e.svc.name == n ==> e.svc.port != port)
  }

  lemma SourcesWhenElsewhere(s: Supervisor, e: Event, n: Name)
    requires Inv(s) && Elsewhere(s, n) && Still(s, n) && (MovesProxies(e) ==> e.svc.name != n)
    ensures var src := Sources(s, e, n);
            src.started == {} && src.queued == {} && !src.away && (src.dropped ==> e.RemoveCall? && e.name == n)
  {
    if e.PortResult? || e.BuildResult? { assert TaskOk(s.starts, e.task); }
  }

  lemma SourcesWhenWaiting(s: Supervisor, e: Event, n: Name, port: int, lazy: bool)
    requires Inv(s) && HandsOff(s, n) && Behaves(e, n, port, lazy, true)
    ensures Sources(s, e, n) == NOTHING
  {
    if e.PortResult? || e.BuildResult? { assert TaskOk(s.starts, e.task); }
  }

  lemma SourcesWhenLazy(s: Supervisor, e: Event, n: Name, port: int, waiting: bool)
    requires Inv(s) && Avoids(s, n, port) && Behaves(e, n, port, true, waiting)
    ensures var src := Sources(s, e, n);
            !src.away && forall svc :: svc in src.started + src.queued + src.asked ==> svc.port != port
  {
    if e.PortResult? || e.BuildResult? { assert TaskAvoids(s, n, port, e.task); }
    if e.RestartTimerFires? { assert TimerAvoids(s, n, port, e.timer); }
    if e.InstallDone? || e.RestartResume? { assert RequestAvoids(s, n, port, e.request); }
    if e.Close? { assert ProcessAvoids(s, n, port, e.child); }
  }

  lemma NotMoved(s: Supervisor, e: Event, n: Name)
    requires MovesProxies(e) ==> e.svc.name != n
    ensures !Sources(s, e, n).away
  {}

  lemma StaysStill(s: Supervisor, s': Supervisor, n: Name, src: Source)
    requires Inv(s) && Inv(s') && Still(s, n) && From(s, s', n, src) && src.started == {} && src.queued == {}
    ensures Still(s', n)
  {
    assert StartingOk(s'.starts, n) && PendingOk(s'.queue, n);
    assert n in s'.starts.starting ==> InFlightOf(s', s'.starts.starting[n], n);
    assert n in s'.queue.pending ==> TimerFor(s', n, s'.queue.pending[n]);
    forall t ensures !InFlightOf(s', t, n) { assert TaskFrom(s, s', n, src, t) && TaskOk(s.starts, t); }
    forall k ensures !TimerFor(s', n, k) { assert TimerFrom(s, s', n, src, k); }
    forall p ensures !Loose(s', p, n) { assert ProcessFrom(s, s', n, src, p); }
  }

  lemma StaysHandsOff(s: Supervisor, s': Supervisor, n: Name)
    requires Inv(s) && Inv(s') && HandsOff(s, n) && From(s, s', n, NOTHING)
    ensures HandsOff(s', n)
  {
    StaysStill(s, s', n, NOTHING);
    forall q ensures !Open(s', q, n) { assert RequestFrom(s, s', n, NOTHING, q); }
  }

  lemma StaysAvoiding(s: Supervisor, s': Supervisor, n: Name, port: int, src: Source)
    requires Inv(s) && Avoids(s, n, port) && From(s, s', n, src)
    requires forall svc :: svc in src.started + src.queued + src.asked ==> svc.port != port
    ensures Avoids(s', n, port)
  {
    forall p ensures ProcessAvoids(s', n, port, p) {
      assert ProcessFrom(s, s', n, src, p) && ProcessAvoids(s, n, port, p) && SameChild(s, s', p);
    }
    forall t ensures TaskAvoids(s', n, port, t) { assert TaskFrom(s, s', n, src, t) && TaskAvoids(s, n, port, t); }
    forall k ensures TimerAvoids(s', n, port, k) { assert TimerFrom(s, s', n, src, k) && TimerAvoids(s, n, port, k); }
    forall q ensures RequestAvoids(s', n, port, q) {
      assert RequestFrom(s, s', n, src, q) && RequestAvoids(s, n, port, q) && RequestOk(s.rows, s.requests, q);
      if 0 <= q < |s.requests| { assert RowFrom(s, s', n, src, s.requests[q].row); }
    }
    if n in s.state { assert StateOk(s.rows, s.state, n) && RowFrom(s, s', n, src, s.state[n]); }
  }

  /** The registered row is the same one, where it was. */
  predicate SamePlace(s: Supervisor, s': Supervisor, n: Name) {
    && Registered(s, n) && Registered(s', n) && s'.state[n] == s.state[n] && Entry(s', n).remote == Entry(s, n).remote
    && Entry(s', n).svc == Entry(s, n).svc
  }

  /** Nothing of the name has been spawned. */
  predicate NoneSpawned(s: Supervisor, s': Supervisor, n: Name) {
    |s.children| <= |s'.children| && forall p :: |s.children| <= p < |s'.children| ==> s'.children[p].svc.name != n
  }

  lemma StaysInPlace(s: Supervisor, s': Supervisor, n: Name, src: Source)
    requires Inv(s) && Registered(s, n) && From(s, s', n, src) && src.started == {} && !src.dropped
    ensures SamePlace(s, s', n) && NoneSpawned(s, s', n)
  {
    assert StateOk(s.rows, s.state, n) && RowFrom(s, s', n, src, s.state[n]);
    if |s.children| > 0 { assert SameChild(s, s', |s.children| - 1); }
    forall p | |s.children| <= p < |s'.children|
      ensures s'.children[p].svc.name != n
    {
      assert SpawnFrom(s, s', n, src, p);
    }
  }

  lemma ElsewhereStep(s: Supervisor, e: Event, n: Name)
    requires Inv(s) && Elsewhere(s, n) && Still(s, n) && (MovesProxies(e) ==> e.svc.name != n)
    ensures Still(Step(s, e), n)
    ensures !(e.RemoveCall? && e.name == n) ==> SamePlace(s, Step(s, e), n) && NoneSpawned(s, Step(s, e), n)
  {
    hide *;
    SourcesWhenElsewhere(s, e, n);
    StepComesFrom(s, e, n);
    StepKeeps(s, e);
    StaysStill(s, Step(s, e), n, Sources(s, e, n));
    if !(e.RemoveCall? && e.name == n) {
      ElsewhereRegistered(s, n);
      StaysInPlace(s, Step(s, e), n, Sources(s, e, n));
    }
  }

  lemma ElsewhereRegistered(s: Supervisor, n: Name)
    requires Elsewhere(s, n)
    ensures Registered(s, n)
  {}

  lemma WaitingStep(s: Supervisor, e: Event, n: Name, port: int, lazy: bool)
    requires Inv(s) && Registered(s, n) && HandsOff(s, n) && Behaves(e, n, port, lazy, true)
    ensures HandsOff(Step(s, e), n) && SamePlace(s, Step(s, e), n)
  {
    hide HandsOff, Inv, Step, Behaves, From, Registered;
    SourcesWhenWaiting(s, e, n, port, lazy);
    StepComesFrom(s, e, n);
    StepKeeps(s, e);
    StaysHandsOff(s, Step(s, e), n);
    StaysInPlace(s, Step(s, e), n, NOTHING);
  }

  lemma LazyStep(s: Supervisor, e: Event, n: Name, port: int, waiting: bool)
    requires Inv(s) && Registered(s, n) && Avoids(s, n, port) && Behaves(e, n, port, true, waiting)
    ensures Avoids(Step(s, e), n, port)
    ensures !(e.RemoveCall? && e.name == n) ==> Registered(Step(s, e), n)
  {
    StepComesFrom(s, e, n);
    assert !(e.RemoveCall? && e.name == n) ==> !Sources(s, e, n).dropped;
    assert EntryFrom(s, Step(s, e), n, Sources(s, e, n));
    hide Inv, Step, Behaves, From, Sources, Avoids;
    SourcesWhenLazy(s, e, n, port, waiting);
    StaysAvoiding(s, Step(s, e), n, port, Sources(s, e, n));
  }

  /** Nobody but a switch or a registration moves the name to an environment. */
  lemma AwayStep(s: Supervisor, e: Event, n: Name)
    requires Inv(s) && (MovesProxies(e) ==> e.svc.name != n) && !Elsewhere(s, n)
    ensures !Elsewhere(Step(s, e), n)
  {
    NotMoved(s, e, n);
    StepComesFrom(s, e, n);
    hide Step, Inv, Sources;
    assert EntryFrom(s, Step(s, e), n, Sources(s, e, n));
  }

  /** One step of the supervisor, taken in turn. */
  lemma StepKeepsHeld(s: Supervisor, e: Event, n: Name, port: int, lazy: bool, waiting: bool)
    requires Held(s, n, port, lazy, waiting) && Turns(s, e, n) && Behaves(e, n, port, lazy, waiting)
    ensures Held(Step(s, e), n, port, lazy && !(e.RemoveCall? && e.name == n), waiting)
    ensures waiting ==> SamePlace(s, Step(s, e), n)
    ensures Elsewhere(s, n) && !(e.RemoveCall? && e.name == n) ==>
              SamePlace(s, Step(s, e), n) && NoneSpawned(s, Step(s, e), n)
  {
    StepKeeps(s, e);
    StepKeepsOneHand(s, e, n, false);
    hide Inv, OneHand, Step, Still, Avoids, HandsOff, Turns;
    if Elsewhere(s, n) { ElsewhereStep(s, e, n); } else { AwayStep(s, e, n); }
    if lazy { LazyStep(s, e, n, port, waiting); }
    if waiting { WaitingStep(s, e, n, port, lazy); }
  }

  // ---------------------------------------------------------------- what a stack keeps

  /** A switch under way knows its service, and is the only one of its name; once told that the port is
   *  free, no process of the service listens on it. */
  ghost predicate SwitchOk(config: SwitchConfig, k: Stack, n: Name, i: int)
    requires Configured(config, n)
  {
    0 <= i < |k.switches| ==>
      var w := k.switches[i];
      && w.svc.name == w.name
      && (Unanswered(k.switches, i, n) ==>
            && w.svc == config.services[n] && n in k.sup.state && k.sup.state[n] == w.row
            && (w.goal.ToLocal? ==> Elsewhere(k.sup, n))
            && (w.phase.Cleared? ==> NoneBound(k, n, config.services[n].port))
            && forall j :: Unanswered(k.switches, j, n) ==> j == i)
  }

  /** What has bound a port is a process we know. */
  predicate BoundKnown(k: Stack) {
    forall p :: p in k.sockets.bound ==> p < |k.sup.children|
  }

  /** The proxies of the name: at most one, none under a switch, and behind a remote one no process of
   *  the service listens. */
  predicate ProxiesOk(k: Stack, n: Name, port: int) {
    && (n in k.proxies.lazy ==> k.proxies.lazy[n] == port && n !in k.proxies.remote)
    && (n in k.proxies.remote ==>
          k.proxies.remote[n].port == port && Elsewhere(k.sup, n) && NoneBound(k, n, port))
  }

  ghost predicate StackInv(config: SwitchConfig, k: Stack, n: Name)
    requires Configured(config, n)
  {
    var port := config.services[n].port;
    && Held(k.sup, n, port, n in k.proxies.lazy, Underway(k.switches, n))
    && ProxiesOk(k, n, port) && BoundKnown(k)
    && (Underway(k.switches, n) ==> n !in k.proxies.lazy && n !in k.proxies.remote)
    && forall i :: SwitchOk(config, k, n, i)
  }

  lemma RestInv(config: SwitchConfig, k: Stack, n: Name)
    requires Configured(config, n) && AtRest(k)
    ensures StackInv(config, k, n)
  {
    assert Inv(k.sup);
    forall p ensures LooseIsEntry(k.sup, n, p) {}
  }

  lemma ChildKept(s: Supervisor, e: Event, p: ChildId)
    requires p < |s.children|
    ensures var s' := Step(s, e); p < |s'.children| && s'.children[p].svc == s.children[p].svc
  {
    StepAges(s, e);
    hide Step;
    assert ChildAged(s.children, Step(s, e).children, p);
  }

  /** The supervisor takes a step in turn, and nothing else changes. */
  lemma SupervisorMoves(config: SwitchConfig, k: Stack, e: Event, n: Name)
    requires Configured(config, n) && StackInv(config, k, n) && Turns(k.sup, e, n)
    requires Behaves(e, n, config.services[n].port, n in k.proxies.lazy, Underway(k.switches, n))
    requires !(e.RemoveCall? && e.name == n)
    ensures StackInv(config, k.(sup := Step(k.sup, e)), n)
  {
    var port, s, s' := config.services[n].port, k.sup, Step(k.sup, e);
    var k' := k.(sup := s');
    StepKeepsHeld(s, e, n, port, n in k.proxies.lazy, Underway(k.switches, n));
    hide Step, Held, Turns, Behaves, Elsewhere;
    forall p | p in k.sockets.bound ensures p < |s'.children| && s'.children[p].svc == s.children[p].svc {
      ChildKept(s, e, p);
    }
    if Elsewhere(s, n) { StillElsewhere(s, s', n); }
    forall i ensures SwitchOk(config, k', n, i) { assert SwitchOk(config, k, n, i); }
  }

  lemma StillElsewhere(s: Supervisor, s': Supervisor, n: Name)
    requires Elsewhere(s, n) && SamePlace(s, s', n)
    ensures Elsewhere(s', n)
  {}

  /** Only what concerns other names has changed. */
  lemma OthersMove(config: SwitchConfig, k: Stack, k': Stack, n: Name)
    requires Configured(config, n) && StackInv(config, k, n)
    requires k'.sup == k.sup && k'.sockets.bound <= k.sockets.bound
    requires n in k'.proxies.lazy <==> n in k.proxies.lazy
    requires n in k.proxies.lazy ==> k'.proxies.lazy[n] == k.proxies.lazy[n]
    requires n in k'.proxies.remote <==> n in k.proxies.remote
    requires n in k.proxies.remote ==> k'.proxies.remote[n] == k.proxies.remote[n]
    requires forall i :: Unanswered(k'.switches, i, n) <==> Unanswered(k.switches, i, n)
    requires forall i :: 0 <= i < |k'.switches| ==>
               && k'.switches[i].svc.name == k'.switches[i].name
               && (Unanswered(k.switches, i, n) ==> k'.switches[i] == k.switches[i])
    ensures StackInv(config, k', n)
  {
    hide Held;
    assert Underway(k'.switches, n) <==> Underway(k.switches, n);
    forall i ensures SwitchOk(config, k', n, i) { assert SwitchOk(config, k, n, i); }
  }

  // ---------------------------------------------------------------- steps of the supervisor

  lemma PoliteBehaves(config: SwitchConfig, k: Stack, e: Event, n: Name)
    requires Configured(config, n) && Polite(k, e, n, config.services[n].port) && !MovesProxies(e)
    ensures Behaves(e, n, config.services[n].port, n in k.proxies.lazy, Underway(k.switches, n))
    ensures Underway(k.switches, n) ==> !(e.RemoveCall? && e.name == n)
  {}

  lemma SupervisedKeeps(config: SwitchConfig, k: Stack, e: Event, n: Name)
    requires Configured(config, n) && StackInv(config, k, n) && Orderly(config, k, Supervise(e), n)
    ensures StackInv(config, Supervised(k, e), n)
  {
    if !MovesProxies(e) {
      PoliteBehaves(config, k, e, n);
      var k1, k' := k.(sup := Step(k.sup, e)), Supervised(k, e);
      hide Step, Held, Turns, Behaves, Polite;
      if e.RemoveCall? && e.name == n {
        RemovalKeeps(config, k, n);
      } else {
        SupervisorMoves(config, k, e, n);
        hide StackInv;
        OthersFollow(config, k1, k', n);
      }
    }
  }

  lemma RemovalKeeps(config: SwitchConfig, k: Stack, n: Name)
    requires Configured(config, n) && StackInv(config, k, n) && !Underway(k.switches, n)
    requires Turns(k.sup, RemoveCall(n), n)
    ensures StackInv(config, Supervised(k, RemoveCall(n)), n)
  {
    var e, port, s := RemoveCall(n), config.services[n].port, k.sup;
    var k', s' := Supervised(k, e), Step(s, e);
    StepKeepsHeld(s, e, n, port, n in k.proxies.lazy, false);
    assert n in k.proxies.lazy || n in k.proxies.remote ==> Registered(s, n);
    hide Step, Held, Turns, Elsewhere;
    assert forall i :: !Unanswered(k'.switches, i, n);
    forall i ensures SwitchOk(config, k', n, i) { assert SwitchOk(config, k, n, i); }
  }

  // ---------------------------------------------------------------- registrations

  /** The proxies of another name have changed, or ports were let go. */
  lemma OthersFollow(config: SwitchConfig, k: Stack, k': Stack, n: Name)
    requires Configured(config, n) && StackInv(config, k, n)
    requires k' == k.(proxies := k'.proxies, sockets := k'.sockets) && k'.sockets.bound <= k.sockets.bound
    requires n in k'.proxies.lazy <==> n in k.proxies.lazy
    requires n in k.proxies.lazy ==> k'.proxies.lazy[n] == k.proxies.lazy[n]
    requires n in k'.proxies.remote <==> n in k.proxies.remote
    requires n in k.proxies.remote ==> k'.proxies.remote[n] == k.proxies.remote[n]
    ensures StackInv(config, k', n)
  {
    forall i | 0 <= i < |k.switches|
      ensures k.switches[i].svc.name == k.switches[i].name
    {
      assert SwitchOk(config, k, n, i);
    }
    hide Held;
    OthersMove(config, k, k', n);
  }

  lemma HandsOffAvoids(s: Supervisor, n: Name, st: ProcessState, port: int)
    requires Inv(s) && HandsOff(s, n) && st.svc.name == n && st.remote.None? && st.svc.port != port
    requires Inv(Install(s, n, st))
    ensures Avoids(Install(s, n, st), n, port)
  {
    var s' := Install(s, n, st);
    forall p ensures ProcessAvoids(s', n, port, p) {
      if 0 <= p < |s.children| { assert ChildOk(s.rows, s.children, s.procs, p); }
      assert Loose(s', p, n) ==> Loose(s, p, n);
    }
    forall t ensures TaskAvoids(s', n, port, t) { assert TaskOk(s.starts, t); }
    forall k ensures TimerAvoids(s', n, port, k) { assert TimerFor(s', n, k) == TimerFor(s, n, k); }
    forall q ensures RequestAvoids(s', n, port, q) { assert Open(s', q, n) == Open(s, q, n); }
  }

  lemma InstallStill(s: Supervisor, n: Name, st: ProcessState)
    requires Inv(s) && HandsOff(s, n)
    ensures Still(Install(s, n, st), n)
  {
    var s' := Install(s, n, st);
    forall p ensures !Loose(s', p, n) {
      if 0 <= p < |s.children| { assert ChildOk(s.rows, s.children, s.procs, p); }
      assert Loose(s', p, n) ==> Loose(s, p, n);
    }
    forall k ensures !TimerFor(s', n, k) { assert TimerFor(s', n, k) == TimerFor(s, n, k); }
  }

  lemma RegistrationTurns(s: Supervisor, x: Event, n: Name)
    requires HandsOff(s, n) && (x.RegisterLazyCall? || x.RegisterRemoteCall?)
    ensures Turns(s, x, n)
  {}

  lemma LazyRowHeld(s: Supervisor, svc: ServiceConfig, n: Name)
    requires Held(s, n, svc.port, false, false) && HandsOff(s, n) && svc.name == n
    ensures Held(OnRegisterLazy(s, svc.(port := svc.port + LAZY_PORT_OFFSET)), n, svc.port, true, false)
  {
    var row := svc.(port := svc.port + LAZY_PORT_OFFSET);
    hide Step, Inv, OneHand, Avoids, HandsOff, Turns, Unmarks;
    StepIs(s, RegisterLazyCall(row));
    RegistrationTurns(s, RegisterLazyCall(row), n);
    StepKeeps(s, RegisterLazyCall(row));
    StepKeepsOneHand(s, RegisterLazyCall(row), n, false);
    HandsOffAvoids(s, n, OnRegisterLazy(s, row).rows[|s.rows|], svc.port);
  }

  lemma BootsLazy(config: SwitchConfig, k: Stack, n: Name)
    requires Configured(config, n) && StackInv(config, k, n) && !Underway(k.switches, n)
    requires n !in k.sup.state && HandsOff(k.sup, n)
    ensures StackInv(config, LazilyBooted(config, k, n), n)
  {
    var svc, k' := config.services[n], LazilyBooted(config, k, n);
    assert n !in k.proxies.lazy && n !in k.proxies.remote;
    assert k'.sup.children == k.sup.children;
    hide Held, HandsOff, Underway, NoneBound, Elsewhere, OnRegisterLazy;
    LazyRowHeld(k.sup, svc, n);
    forall i ensures SwitchOk(config, k', n, i) { assert SwitchOk(config, k, n, i); }
  }

  lemma BootsRemote(config: SwitchConfig, k: Stack, n: Name, env: string)
    requires Configured(config, n) && StackInv(config, k, n) && !Underway(k.switches, n)
    requires n !in k.sup.state && HandsOff(k.sup, n) && NoneBound(k, n, config.services[n].port)
    ensures StackInv(config, RemotelyBooted(config, k, n, env), n)
  {
    var svc, s, k' := config.services[n], k.sup, RemotelyBooted(config, k, n, env);
    var x := RegisterRemoteCall(svc, env);
    hide Step, Inv, OneHand, Still, HandsOff, Turns, Unmarks;
    StepIs(s, x);
    RegistrationTurns(s, x, n);
    StepKeeps(s, x);
    StepKeepsOneHand(s, x, n, false);
    InstallStill(s, n, k'.sup.rows[|s.rows|]);
    forall i ensures SwitchOk(config, k', n, i) { assert SwitchOk(config, k, n, i); }
  }

  /** Another name is registered, with the proxy that goes with it. */
  lemma OtherBoots(config: SwitchConfig, k: Stack, x: Event, proxies: Proxies, n: Name)
    requires Configured(config, n) && StackInv(config, k, n)
    requires (x.RegisterLazyCall? || x.RegisterRemoteCall?) && x.svc.name != n
    requires n in proxies.lazy <==> n in k.proxies.lazy
    requires n in k.proxies.lazy ==> proxies.lazy[n] == k.proxies.lazy[n]
    requires n in proxies.remote <==> n in k.proxies.remote
    requires n in k.proxies.remote ==> proxies.remote[n] == k.proxies.remote[n]
    ensures StackInv(config, k.(sup := Step(k.sup, x), proxies := proxies), n)
  {
    var k1 := k.(sup := Step(k.sup, x));
    assert Turns(k.sup, x, n) && Behaves(x, n, config.services[n].port, n in k.proxies.lazy, Underway(k.switches, n));
    hide Step, StackInv, Turns, Behaves;
    SupervisorMoves(config, k, x, n);
    OthersFollow(config, k1, k1.(proxies := proxies), n);
  }

  lemma NotUnderway(config: SwitchConfig, k: Stack, n: Name)
    requires Configured(config, n) && StackInv(config, k, n) && n !in k.sup.state
    ensures !Underway(k.switches, n)
  {
    forall i ensures !Unanswered(k.switches, i, n) { assert SwitchOk(config, k, n, i); }
  }

  lemma BootLazyKeeps(config: SwitchConfig, k: Stack, m: Name, n: Name)
    requires Configured(config, n) && StackInv(config, k, n) && Orderly(config, k, BootLazy(m), n)
    ensures StackInv(config, LazilyBooted(config, k, m), n)
  {
    if Configured(config, m) {
      var k' := LazilyBooted(config, k, m);
      var x := RegisterLazyCall(config.services[m].(port := config.services[m].port + LAZY_PORT_OFFSET));
      StepIs(k.sup, x);
      hide Step, StackInv, OnRegisterLazy;
      if m == n {
        NotUnderway(config, k, n);
        BootsLazy(config, k, n);
      } else {
        OtherBoots(config, k, x, k'.proxies, n);
      }
    }
  }

  lemma BootRemoteKeeps(config: SwitchConfig, k: Stack, m: Name, env: string, n: Name)
    requires Configured(config, n) && StackInv(config, k, n) && Orderly(config, k, BootRemote(m, env), n)
    ensures StackInv(config, RemotelyBooted(config, k, m, env), n)
  {
    if Configured(config, m) {
      var k' := RemotelyBooted(config, k, m, env);
      var x := RegisterRemoteCall(config.services[m], env);
      StepIs(k.sup, x);
      hide Step, StackInv, OnRegisterRemote;
      if m == n {
        NotUnderway(config, k, n);
        BootsRemote(config, k, n, env);
      } else {
        OtherBoots(config, k, x, k'.proxies, n);
      }
    }
  }

  // ---------------------------------------------------------------- switches

  /** A switch is added that is of another name, or answered. */
  lemma OtherSwitchAdded(config: SwitchConfig, k: Stack, w: Switch, n: Name)
    requires Configured(config, n) && StackInv(config, k, n)
    requires w.svc.name == w.name && (w.name == n ==> w.phase.Answered?)
    ensures StackInv(config, k.(switches := k.switches + [w]), n)
  {
    var k' := k.(switches := k.switches + [w]);
    forall i | 0 <= i < |k'.switches| ensures k'.switches[i].svc.name == k'.switches[i].name {
      assert SwitchOk(config, k, n, i);
    }
    hide Held;
    OthersMove(config, k, k', n);
  }

  /** Another switch goes on. */
  lemma OtherPhase(config: SwitchConfig, k: Stack, i: nat, phase: SwitchPhase, n: Name)
    requires Configured(config, n) && StackInv(config, k, n) && i < |k.switches| && k.switches[i].name != n
    ensures StackInv(config, SetPhase(k, i, phase), n)
  {
    var k' := SetPhase(k, i, phase);
    forall j | 0 <= j < |k'.switches| ensures k'.switches[j].svc.name == k'.switches[j].name {
      assert SwitchOk(config, k, n, j);
    }
    hide Held;
    OthersMove(config, k, k', n);
  }

  lemma OtherReleases(config: SwitchConfig, k: Stack, m: Name, n: Name)
    requires Configured(config, n) && StackInv(config, k, n) && m != n
    ensures StackInv(config, Release(k, m), n)
  {
    var k1 := k.(sup := Step(k.sup, CancelCall(m)));
    var k2 := k1.(sup := Step(k1.sup, StopCall(m)));
    hide Step, StackInv, CancelRestart, StopService;
    StepIs(k.sup, CancelCall(m));
    StepIs(k1.sup, StopCall(m));
    SupervisorMoves(config, k, CancelCall(m), n);
    SupervisorMoves(config, k1, StopCall(m), n);
    OthersFollow(config, k2, Release(k, m), n);
  }

  lemma OtherCall(config: SwitchConfig, k: Stack, m: Name, goal: Goal, n: Name)
    requires Configured(config, n) && StackInv(config, k, n) && m != n
    ensures StackInv(config, SwitchCall(config, k, m, goal), n)
  {
    if Acceptable(config, k, m, goal) {
      var svc, row := config.services[m], k.sup.state[m];
      var k1 := k.(proxies := k.proxies.(remote := k.proxies.remote - {m}));
      hide StackInv, Release;
      OtherReleases(config, k, m, n);
      OthersFollow(config, k, k1, n);
      OtherSwitchAdded(config, k, Switch(m, svc, row, goal, Answered(true)), n);
      OtherSwitchAdded(config, Release(k, m),
                       Switch(m, svc, row, goal, Polling(Release(k, m).sup.clock + PORT_RELEASE_TIMEOUT_MS)), n);
      OtherSwitchAdded(config, k1, Switch(m, svc, row, goal, Polling(k.sup.clock + PORT_RELEASE_TIMEOUT_MS)), n);
    }
  }

  /** What is left of a service that was told to go: nothing that could bring it up. */
  lemma ReleaseLeavesNothing(s: Supervisor, n: Name)
    requires Inv(s) && OneHand(s, n, false) && Registered(s, n) && n !in s.starts.starting && NoOpen(s, n)
    ensures var s' := StopService(CancelRestart(s, n), n);
            && Inv(s') && OneHand(s', n, false) && HandsOff(s', n) && SamePlace(s, s', n)
  {
    var s1 := CancelRestart(s, n);
    var s' := StopService(s1, n);
    CancelRestartKeeps(s, n);
    CancelOwn(s, n, false);
    StopServiceKeeps(s1, n);
    StopHand(s1, n, n, false);
    StepIs(s, CancelCall(n));
    StepIs(s1, StopCall(n));
    StepComesFrom(s, CancelCall(n), n);
    StepComesFrom(s1, StopCall(n), n);
    assert s1.requests == s.requests;
    forall q ensures !Open(s', q, n) { assert RequestFrom(s1, s', n, NOTHING, q) && RequestFrom(s, s1, n, NOTHING, q); }
    hide CancelRestart, StopService, Step;
    StaysInPlace(s, s1, n, NOTHING);
    StaysInPlace(s1, s', n, NOTHING);
  }

  /** A call begins a switch of its own name. */
  lemma OwnSwitchBegins(config: SwitchConfig, k: Stack, w: Switch, n: Name)
    requires Configured(config, n) && !Underway(k.switches, n)
    requires Inv(k.sup) && OneHand(k.sup, n, false) && HandsOff(k.sup, n) && Registered(k.sup, n)
    requires n !in k.proxies.lazy && n !in k.proxies.remote && BoundKnown(k)
    requires w.name == n && w.svc == config.services[n] && w.row == k.sup.state[n] && w.phase.Polling?
    requires w.goal.ToLocal? ==> Elsewhere(k.sup, n)
    requires forall i :: 0 <= i < |k.switches| ==> k.switches[i].svc.name == k.switches[i].name
    ensures StackInv(config, k.(switches := k.switches + [w]), n)
  {
    var k' := k.(switches := k.switches + [w]);
    hide Inv, OneHand;
    forall i ensures Unanswered(k'.switches, i, n) ==> i == |k.switches| {
      assert Unanswered(k'.switches, i, n) && i < |k.switches| ==> Unanswered(k.switches, i, n);
    }
    forall i ensures SwitchOk(config, k', n, i) {}
  }

  lemma OwnCall(config: SwitchConfig, k: Stack, n: Name, goal: Goal)
    requires Configured(config, n) && StackInv(config, k, n) && Orderly(config, k, CallSwitch(n, goal), n)
    ensures StackInv(config, SwitchCall(config, k, n, goal), n)
  {
    if Acceptable(config, k, n, goal) {
      var svc, row := config.services[n], k.sup.state[n];
      forall i | 0 <= i < |k.switches|
        ensures k.switches[i].svc.name == k.switches[i].name
      {
        assert SwitchOk(config, k, n, i);
      }
      if AlreadyThere(k, n, goal) {
        hide StackInv;
        OtherSwitchAdded(config, k, Switch(n, svc, row, goal, Answered(true)), n);
      } else if goal.ToRemote? {
        ReleaseLeavesNothing(k.sup, n);
        ReleaseKeepsBound(k, n);
        var k1 := Release(k, n);
        hide Inv, OneHand, HandsOff, StackInv, StopService, CancelRestart;
        OwnSwitchBegins(config, k1, Switch(n, svc, row, goal, Polling(k1.sup.clock + PORT_RELEASE_TIMEOUT_MS)), n);
      } else {
        var k1 := k.(proxies := k.proxies.(remote := k.proxies.remote - {n}));
        assert Elsewhere(k.sup, n) && n !in k.proxies.lazy;
        hide Inv, OneHand, StackInv;
        OwnSwitchBegins(config, k1, Switch(n, svc, row, goal, Polling(k1.sup.clock + PORT_RELEASE_TIMEOUT_MS)), n);
      }
    }
  }

  lemma ReleaseKeepsBound(k: Stack, n: Name)
    requires BoundKnown(k)
    ensures BoundKnown(Release(k, n))
  {}

  // ---------------------------------------------------------------- answers and commits

  lemma OwnPhase(config: SwitchConfig, k: Stack, i: nat, phase: SwitchPhase, n: Name)
    requires Configured(config, n) && StackInv(config, k, n) && Unanswered(k.switches, i, n) && !phase.Polling?
    requires phase.Cleared? ==> NoneBound(k, n, config.services[n].port)
    ensures StackInv(config, SetPhase(k, i, phase), n)
  {
    var k' := SetPhase(k, i, phase);
    assert SwitchOk(config, k, n, i);
    assert Unanswered(k'.switches, i, n) <==> !phase.Answered?;
    forall j ensures Unanswered(k'.switches, j, n) ==> j == i && phase.Cleared? {
      if Unanswered(k'.switches, j, n) { assert Unanswered(k.switches, j, n); }
    }
    forall j ensures SwitchOk(config, k', n, j) { assert SwitchOk(config, k, n, j); }
    hide Inv, OneHand, HandsOff, Still, Avoids;
  }

  lemma AnswerKeeps(config: SwitchConfig, k: Stack, i: nat, free: bool, n: Name)
    requires Configured(config, n) && StackInv(config, k, n)
    ensures StackInv(config, PortAnswer(k, i, free), n)
  {
    if IsPolling(k, i) {
      assert SwitchOk(config, k, n, i);
      assert free && Bindable(k, k.switches[i].svc.port) ==> NoneBound(k, n, k.switches[i].svc.port);
      hide StackInv, NoneBound, Bindable;
      if k.switches[i].name == n {
        OwnPhase(config, k, i, Answered(false), n);
        if free && Bindable(k, k.switches[i].svc.port) { OwnPhase(config, k, i, Cleared, n); }
      } else {
        OtherPhase(config, k, i, Answered(false), n);
        OtherPhase(config, k, i, Cleared, n);
      }
    }
  }

  /** A switch of another name commits. */
  lemma OtherCommitsRemote(config: SwitchConfig, k: Stack, i: nat, n: Name)
    requires Configured(config, n) && StackInv(config, k, n) && IsCleared(k, i) && k.switches[i].name != n
    requires k.switches[i].goal.ToRemote?
    ensures StackInv(config, Commit(k, i), n)
  {
    var w, k0 := k.switches[i], SetPhase(k, i, Answered(true));
    assert SwitchOk(config, k, n, i);
    var x := RemoteCommit(w.row, w.svc, w.goal.env);
    StepIs(k.sup, x);
    var k' := Commit(k, i);
    assert k' == k0.(sup := Step(k.sup, x),
                     proxies := k.proxies.(remote := k.proxies.remote[w.name := RemoteProxy(w.svc.port, w.goal.env)]));
    hide Step, StackInv, OnRemoteCommit, Commit;
    OtherPhase(config, k, i, Answered(true), n);
    SupervisorMoves(config, k0, x, n);
    OthersFollow(config, k0.(sup := Step(k.sup, x)), k', n);
  }

  lemma OtherCommitsLocal(config: SwitchConfig, k: Stack, i: nat, n: Name)
    requires Configured(config, n) && StackInv(config, k, n) && IsCleared(k, i) && k.switches[i].name != n
    requires k.switches[i].goal.ToLocal?
    ensures StackInv(config, Commit(k, i), n)
  {
    var w, k0 := k.switches[i], SetPhase(k, i, Answered(true));
    assert SwitchOk(config, k, n, i);
    var x, y := LocalCommit(w.row, w.svc), StartServiceCall(w.name);
    var k1 := k0.(sup := Step(k.sup, x));
    StepIs(k.sup, x);
    StepIs(k1.sup, y);
    assert Commit(k, i) == k1.(sup := Step(k1.sup, y));
    hide Step, StackInv, OnLocalCommit, OnStartService, Commit;
    OtherPhase(config, k, i, Answered(true), n);
    SupervisorMoves(config, k0, x, n);
    SupervisorMoves(config, k1, y, n);
  }

  /** What a commit to an environment leaves as it was. */
  lemma CommitLeaves(s: Supervisor, r: RowId, svc: ServiceConfig, env: string, n: Name)
    requires Inv(s) && HandsOff(s, n) && Registered(s, n) && s.state[n] == r && svc.name == n
    ensures var s' := OnRemoteCommit(s, r, svc, env);
            && Inv(s') && OneHand(s', n, false) && HandsOff(s', n) && Elsewhere(s', n) && s'.state == s.state
            && s'.children == s.children && Entry(s', n).remote == Some(env)
  {
    var x := RemoteCommit(r, svc, env);
    StepIs(s, x);
    StepKeeps(s, x);
    assert StateOk(s.rows, s.state, n);
    var s' := OnRemoteCommit(s, r, svc, env);
    hide Step;
    forall p ensures !Loose(s', p, n) { assert Loose(s', p, n) ==> Loose(s, p, n); }
    forall q ensures !Open(s', q, n) { assert Open(s', q, n) ==> Open(s, q, n); }
    forall k ensures !TimerFor(s', n, k) { assert TimerFor(s', n, k) ==> TimerFor(s, n, k); }
    HandOfProcess(s', n, false) by {
      forall p ensures LooseIsEntry(s', n, p) { assert !Loose(s', p, n); }
    }
  }

  /** The switch to an environment takes the port. */
  lemma CommitsRemote(config: SwitchConfig, k: Stack, i: nat, n: Name)
    requires Configured(config, n) && StackInv(config, k, n) && IsCleared(k, i) && k.switches[i].name == n
    requires k.switches[i].goal.ToRemote?
    ensures var k' := Commit(k, i);
            && StackInv(config, k', n) && !Underway(k'.switches, n) && HandsOff(k'.sup, n)
            && n in k'.proxies.remote
              && k'.proxies.remote[n] == RemoteProxy(config.services[n].port, k.switches[i].goal.env)
            && Entry(k'.sup, n).remote == Some(k.switches[i].goal.env) && k'.sup.children == k.sup.children
            && k'.sup.state == k.sup.state
  {
    var w, k' := k.switches[i], Commit(k, i);
    assert SwitchOk(config, k, n, i) && Unanswered(k.switches, i, n);
    CommitLeaves(k.sup, w.row, w.svc, w.goal.env, n);
    forall j ensures !Unanswered(k'.switches, j, n) {
      assert Unanswered(k'.switches, j, n) ==> Unanswered(k.switches, j, n);
    }
    forall j ensures SwitchOk(config, k', n, j) { assert SwitchOk(config, k, n, j); }
    hide Inv, OneHand, OnRemoteCommit;
  }

  /** The row is local again, and nothing else has changed. */
  lemma BackAtHome(s: Supervisor, r: RowId, svc: ServiceConfig, n: Name)
    requires Inv(s) && HandsOff(s, n) && Registered(s, n) && s.state[n] == r && svc.name == n
    ensures var s' := OnLocalCommit(s, r, svc);
            && s'.starts == s.starts && s'.state == s.state && s'.children == s.children
            && !Elsewhere(s', n) && NoOpen(s', n)
  {
    var s' := OnLocalCommit(s, r, svc);
    assert StateOk(s.rows, s.state, n);
    forall q ensures !Open(s', q, n) { assert Open(s', q, n) ==> Open(s, q, n); }
  }

  lemma LocalLeaves(s: Supervisor, r: RowId, svc: ServiceConfig, n: Name)
    requires Inv(s) && OneHand(s, n, false) && HandsOff(s, n) && Registered(s, n) && s.state[n] == r && svc.name == n
    ensures var s' := OnStartService(OnLocalCommit(s, r, svc), n);
            Inv(s') && OneHand(s', n, false) && !Elsewhere(s', n) && s'.state == s.state && s'.children == s.children
  {
    var x, y := LocalCommit(r, svc), StartServiceCall(n);
    var s1 := OnLocalCommit(s, r, svc);
    hide Step, Inv, OneHand, OnLocalCommit, OnStartService, Unmarks;
    BackAtHome(s, r, svc, n);
    StepIs(s, x);
    StepIs(s1, y);
    StepKeeps(s, x);
    StepKeeps(s1, y);
    StepKeepsOneHand(s, x, n, false);
    StepKeepsOneHand(s1, y, n, false);
    StartServiceKeepsPlace(s1, n);
  }

  lemma StartServiceKeepsPlace(s: Supervisor, n: Name)
    requires !Elsewhere(s, n)
    ensures var s' := OnStartService(s, n); s'.state == s.state && s'.children == s.children && !Elsewhere(s', n)
  {}

  /** The switch back hands the port to the service's own process. */
  lemma CommitsLocal(config: SwitchConfig, k: Stack, i: nat, n: Name)
    requires Configured(config, n) && StackInv(config, k, n) && IsCleared(k, i) && k.switches[i].name == n
    requires k.switches[i].goal.ToLocal?
    ensures StackInv(config, Commit(k, i), n)
  {
    var w, k' := k.switches[i], Commit(k, i);
    assert SwitchOk(config, k, n, i) && Unanswered(k.switches, i, n);
    LocalLeaves(k.sup, w.row, w.svc, n);
    forall j ensures !Unanswered(k'.switches, j, n) {
      assert Unanswered(k'.switches, j, n) ==> Unanswered(k.switches, j, n);
    }
    hide Inv, OneHand, OnLocalCommit, OnStartService;
    forall j ensures SwitchOk(config, k', n, j) { assert SwitchOk(config, k, n, j); }
  }

  // ---------------------------------------------------------------- sockets

  lemma BindKeeps(config: SwitchConfig, k: Stack, p: ChildId, n: Name)
    requires Configured(config, n) && StackInv(config, k, n)
    ensures StackInv(config, StackStep(config, k, Bind(p)), n)
  {
    var k' := StackStep(config, k, Bind(p));
    assert Underway(k.switches, n) || Elsewhere(k.sup, n) ==> !Loose(k.sup, p, n);
    hide Held;
    forall i ensures SwitchOk(config, k', n, i) {
      assert SwitchOk(config, k, n, i);
    }
  }

  lemma SocketsKeep(config: SwitchConfig, k: Stack, e: StackEvent, n: Name)
    requires Configured(config, n) && StackInv(config, k, n)
    requires e.Unbind? || e.StrangerTakes? || e.StrangerLeaves?
    ensures StackInv(config, StackStep(config, k, e), n)
  {
    hide StackInv;
    OthersFollow(config, k, StackStep(config, k, e), n);
  }

  // ---------------------------------------------------------------- runs

  lemma CommitKeeps(config: SwitchConfig, k: Stack, i: nat, n: Name)
    requires Configured(config, n) && StackInv(config, k, n)
    ensures StackInv(config, Commit(k, i), n)
  {
    hide StackInv;
    if IsCleared(k, i) {
      if k.switches[i].name != n {
        if k.switches[i].goal.ToRemote? {
          OtherCommitsRemote(config, k, i, n);
        } else {
          OtherCommitsLocal(config, k, i, n);
        }
      } else if k.switches[i].goal.ToRemote? { CommitsRemote(config, k, i, n); }
      else { CommitsLocal(config, k, i, n); }
    }
  }

  lemma StackStepKeeps(config: SwitchConfig, k: Stack, e: StackEvent, n: Name)
    requires Configured(config, n) && StackInv(config, k, n) && Orderly(config, k, e, n)
    ensures StackInv(config, StackStep(config, k, e), n)
  {
    hide StackInv, Orderly, Supervised, LazilyBooted, RemotelyBooted, SwitchCall, PortAnswer, Commit;
    match e
    case Supervise(x) => SupervisedKeeps(config, k, x, n);
    case BootLazy(m) => BootLazyKeeps(config, k, m, n);
    case BootRemote(m, env) => BootRemoteKeeps(config, k, m, env, n);
    case CallSwitch(m, goal) => if m == n { OwnCall(config, k, n, goal); } else { OtherCall(config, k, m, goal, n); }
    case AnswerPort(i, free) => AnswerKeeps(config, k, i, free, n);
    case CommitSwitch(i) => CommitKeeps(config, k, i, n);
    case Bind(p) => BindKeeps(config, k, p, n);
    case _ => SocketsKeep(config, k, e, n);
  }
}
