/** Moving one service between a local process and a remote environment.
 *
 *  A stack is a supervisor with its lazy and remote proxies and what the operating system knows: which
 *  live processes have bound their port.  A switch runs in segments: it lets go of every claim on the
 *  configured port, polls until the port is free, and then the next owner takes it.  Nothing guards a
 *  registration: the answer of an earlier poll is all that a switch goes by. */
module Switching {
  import opened Options
  import opened Supervision
  import opened RestartAdvertising
  import opened Provenance

  const PORT_RELEASE_TIMEOUT_MS: nat := 8000
  const LAZY_PORT_OFFSET: int := 10000

  datatype RemoteProxy = RemoteProxy(port: int, env: string)

  datatype Goal = ToRemote(env: string) | ToLocal

  /** One call of switchService: polling the port, told that it is free, or answered. */
  datatype SwitchPhase = Polling(deadline: nat) | Cleared | Answered(ok: bool)
  datatype Switch = Switch(name: Name, svc: ServiceConfig, row: RowId, goal: Goal, phase: SwitchPhase)

  /** `targets` says for which services an environment has a target. */
  datatype SwitchConfig = SwitchConfig(services: map<Name, ServiceConfig>, targets: map<string, set<Name>>)

  datatype Proxies = Proxies(lazy: map<Name, int>, remote: map<Name, RemoteProxy>)

  /** `bound` are the processes that have bound their port, `foreign` the ports that other programs hold. */
  datatype Sockets = Sockets(bound: set<ChildId>, foreign: set<int>)

  datatype Stack = Stack(sup: Supervisor, proxies: Proxies, sockets: Sockets, switches: seq<Switch>)

  /** What isPortBindable finds out, if it answers yes. */
  predicate Bindable(k: Stack, port: int) {
    && (forall n :: n in k.proxies.lazy ==> k.proxies.lazy[n] != port)
    && (forall n :: n in k.proxies.remote ==> k.proxies.remote[n].port != port)
    && (forall p :: p in k.sockets.bound && p < |k.sup.children| ==> k.sup.children[p].svc.port != port)
    && port !in k.sockets.foreign
  }

  // ---------------------------------------------------------------- the segments of a switch

  /** Everything that claims the configured port of `n`, released in order. */
  function Release(k: Stack, n: Name): Stack {
    k.(sup := StopService(CancelRestart(k.sup, n), n),
       proxies := Proxies(k.proxies.lazy - {n}, k.proxies.remote - {n}))
  }

  function Answer(k: Stack, n: Name, svc: ServiceConfig, row: RowId, goal: Goal, ok: bool): Stack {
    k.(switches := k.switches + [Switch(n, svc, row, goal, Answered(ok))])
  }

  function Wait(k: Stack, n: Name, svc: ServiceConfig, row: RowId, goal: Goal): Stack {
    k.(switches := k.switches + [Switch(n, svc, row, goal, Polling(k.sup.clock + PORT_RELEASE_TIMEOUT_MS))])
  }

  /** The configuration has a service of this name. */
  predicate Configured(config: SwitchConfig, n: Name) {
    n in config.services && config.services[n].name == n
  }

  /** Whether switchService knows what it is asked for. */
  predicate Acceptable(config: SwitchConfig, k: Stack, n: Name, goal: Goal) {
    && Registered(k.sup, n) && Configured(config, n)
    && (goal.ToRemote? ==> goal.env in config.targets && n in config.targets[goal.env])
  }

  /** Whether the service is already where it is asked to go. */
  predicate AlreadyThere(k: Stack, n: Name, goal: Goal)
    requires Registered(k.sup, n)
  {
    if goal.ToRemote? then Entry(k.sup, n).remote == Some(goal.env) else Entry(k.sup, n).remote.None?
  }

  /** switchService up to its first look at the port. */
  function SwitchCall(config: SwitchConfig, k: Stack, n: Name, goal: Goal): Stack {
    if !Acceptable(config, k, n, goal) then k
    else
      var svc, row := config.services[n], k.sup.state[n];
      if AlreadyThere(k, n, goal) then Answer(k, n, svc, row, goal, true)
      else if goal.ToRemote? then Wait(Release(k, n), n, svc, row, goal)
      else Wait(k.(proxies := k.proxies.(remote := k.proxies.remote - {n})), n, svc, row, goal)
  }

  predicate Unanswered(switches: seq<Switch>, i: int, n: Name) {
    0 <= i < |switches| && switches[i].name == n && !switches[i].phase.Answered?
  }

  /** A switch of the name has been called and not answered. */
  ghost predicate Underway(switches: seq<Switch>, n: Name) {
    exists i :: Unanswered(switches, i, n)
  }

  predicate IsPolling(k: Stack, i: nat) {
    i < |k.switches| && k.switches[i].phase.Polling?
  }

  predicate IsCleared(k: Stack, i: nat) {
    i < |k.switches| && k.switches[i].phase.Cleared?
  }

  function SetPhase(k: Stack, i: nat, phase: SwitchPhase): Stack
    requires i < |k.switches|
  {
    k.(switches := k.switches[i := k.switches[i].(phase := phase)])
  }

  /** One answer of isPortBindable to waitForPortFree.  A yes is true when it is given. */
  function PortAnswer(k: Stack, i: nat, free: bool): Stack {
    if !IsPolling(k, i) || (free && !Bindable(k, k.switches[i].svc.port)) then k
    else if free then SetPhase(k, i, Cleared)
    else if k.switches[i].phase.deadline <= k.sup.clock then SetPhase(k, i, Answered(false))
    else k
  }

  /** The switch has been told that the port is free, and the next owner takes it. */
  function Commit(k: Stack, i: nat): Stack {
    if !IsCleared(k, i) then k
    else
      var w := k.switches[i];
      var k1 := SetPhase(k, i, Answered(true));
      match w.goal
      case ToRemote(env) =>
        k1.(sup := OnRemoteCommit(k.sup, w.row, w.svc, env),
            proxies := k.proxies.(remote := k.proxies.remote[w.name := RemoteProxy(w.svc.port, env)]))
      case ToLocal =>
        k1.(sup := OnStartService(OnLocalCommit(k.sup, w.row, w.svc), w.name))
  }

  // ---------------------------------------------------------------- runs of a stack

  datatype StackEvent =
    | Supervise(e: Event)                       // a step of the supervisor that moves no proxy in
    | BootLazy(name: Name)                      // registered behind an on-demand proxy
    | BootRemote(name: Name, env: string)       // registered as served from an environment
    | CallSwitch(name: Name, goal: Goal)
    | AnswerPort(switch: nat, free: bool)
    | CommitSwitch(switch: nat)
    | Bind(child: ChildId)                      // a process that nobody stopped listens on its port
    | Unbind(child: ChildId)
    | StrangerTakes(port: int)
    | StrangerLeaves(port: int)

  /** The operating system takes back what a dead process had bound. */
  function Reaped(bound: set<ChildId>, sup: Supervisor): set<ChildId> {
    set p | p in bound && p < |sup.children| && !sup.children[p].exited
  }

  /** registerLazy: the row has the internal port, the proxy listens on the configured one. */
  function LazilyBooted(config: SwitchConfig, k: Stack, n: Name): Stack {
    if !Configured(config, n) then k
    else
      var svc := config.services[n];
      k.(sup := OnRegisterLazy(k.sup, svc.(port := svc.port + LAZY_PORT_OFFSET)),
         proxies := k.proxies.(lazy := k.proxies.lazy[n := svc.port]))
  }

  function RemotelyBooted(config: SwitchConfig, k: Stack, n: Name, env: string): Stack {
    if !Configured(config, n) then k
    else
      var svc := config.services[n];
      k.(sup := OnRegisterRemote(k.sup, svc, env),
         proxies := k.proxies.(remote := k.proxies.remote[n := RemoteProxy(svc.port, env)]))
  }

  /** A removal is announced, and whoever keeps the proxies lets go of them. */
  function AfterRemoval(proxies: Proxies, s: Supervisor, e: Event): Proxies {
    if e.RemoveCall? && Registered(s, e.name) then Proxies(proxies.lazy - {e.name}, proxies.remote - {e.name})
    else proxies
  }

  /** Events that come with a proxy of their own. */
  predicate MovesProxies(e: Event) {
    e.RemoteCommit? || e.LocalCommit? || e.RegisterLazyCall? || e.RegisterRemoteCall?
  }

  function Supervised(k: Stack, e: Event): Stack {
    if MovesProxies(e) then k
    else
      var sup := Step(k.sup, e);
      k.(sup := sup, proxies := AfterRemoval(k.proxies, k.sup, e),
         sockets := k.sockets.(bound := Reaped(k.sockets.bound, sup)))
  }

  function StackStep(config: SwitchConfig, k: Stack, e: StackEvent): Stack {
    match e
    case Supervise(x) => Supervised(k, x)
    case BootLazy(n) => LazilyBooted(config, k, n)
    case BootRemote(n, env) => RemotelyBooted(config, k, n, env)
    case CallSwitch(n, goal) => SwitchCall(config, k, n, goal)
    case AnswerPort(i, free) => PortAnswer(k, i, free)
    case CommitSwitch(i) => Commit(k, i)
    case Bind(p) =>
      if p < |k.sup.children| && Loose(k.sup, p, k.sup.children[p].svc.name)
      then k.(sockets := k.sockets.(bound := k.sockets.bound + {p})) else k
    case Unbind(p) => k.(sockets := k.sockets.(bound := k.sockets.bound - {p}))
    case StrangerTakes(port) => k.(sockets := k.sockets.(foreign := k.sockets.foreign + {port}))
    case StrangerLeaves(port) => k.(sockets := k.sockets.(foreign := k.sockets.foreign - {port}))
  }

  function StackRun(config: SwitchConfig, k: Stack, events: seq<StackEvent>): Stack
    decreases |events|
  {
    if events == [] then k else StackRun(config, StackStep(config, k, events[0]), events[1..])
  }

  /** A stack at rest: nothing is listening and nothing runs. */
  predicate AtRest(k: Stack) {
    Initial(k.sup) && k.proxies == Proxies(map[], map[]) && k.sockets.bound == {} && k.switches == []
  }

  // ---------------------------------------------------------------- claims on a port

  /** Who answers on a port, or will when left alone: a proxy that is registered for it, a live process
   *  nobody stopped, a start in flight, a queued restart. */
  datatype Claim = LazyClaim | RemoteClaim | ProcessClaim(child: int) | StartClaim(task: int) | TimerClaim(timer: int)

  predicate Claims(k: Stack, n: Name, port: int, c: Claim) {
    match c
    case LazyClaim => n in k.proxies.lazy && k.proxies.lazy[n] == port
    case RemoteClaim => n in k.proxies.remote && k.proxies.remote[n].port == port
    case ProcessClaim(p) => Loose(k.sup, p, n) && k.sup.children[p].svc.port == port
    case StartClaim(t) => InFlightOf(k.sup, t, n) && k.sup.starts.tasks[t].svc.port == port
    case TimerClaim(x) => TimerFor(k.sup, n, x) && k.sup.queue.timers[x].svc.port == port
  }

  ghost predicate OneClaim(k: Stack, n: Name, port: int) {
    forall c, d :: Claims(k, n, port, c) && Claims(k, n, port, d) ==> c == d
  }

  // ---------------------------------------------------------------- runs without overlap

  /** No process of the name listens on the port. */
  predicate NoneBound(k: Stack, n: Name, port: int) {
    forall p :: p in k.sockets.bound && p < |k.sup.children| && k.sup.children[p].svc.name == n ==>
      k.sup.children[p].svc.port != port
  }

  /** While a switch of the name is under way nobody starts, restarts or removes it, and behind its lazy
   *  proxy it is started on its internal port only. */
  ghost predicate Polite(k: Stack, e: Event, n: Name, port: int) {
    && (Underway(k.switches, n) ==>
          && !(e.StartCall? && e.svc.name == n)
          && !((e.StartServiceCall? || e.RestartServiceCall? || e.RemoveCall?) && e.name == n))
    && (n in k.proxies.lazy && e.StartCall? && e.svc.name == n ==> e.svc.port != port)
  }

  /** The callers of `n` take turns, switches included: no switch is called while another one or a start
   *  of the name is under way, and the name is registered only when nothing of it is left. */
  ghost predicate Orderly(config: SwitchConfig, k: Stack, e: StackEvent, n: Name)
    requires Configured(config, n)
  {
    match e
    case Supervise(x) => Turns(k.sup, x, n) && Polite(k, x, n, config.services[n].port)
    case BootLazy(m) => m == n ==> n !in k.sup.state && HandsOff(k.sup, n)
    case BootRemote(m, _) => m == n ==>
      n !in k.sup.state && HandsOff(k.sup, n) && NoneBound(k, n, config.services[n].port)
    case CallSwitch(m, _) => m == n ==> !Underway(k.switches, n) && n !in k.sup.starts.starting && NoOpen(k.sup, n)
    case _ => true
  }

  ghost predicate OrderlyRun(config: SwitchConfig, k: Stack, events: seq<StackEvent>, n: Name)
    requires Configured(config, n)
    decreases |events|
  {
    events != [] ==>
      Orderly(config, k, events[0], n) && OrderlyRun(config, StackStep(config, k, events[0]), events[1..], n)
  }
}
