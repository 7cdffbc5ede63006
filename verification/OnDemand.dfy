/** The on-demand proxy of a lazy service: one start at a time, a queue of connections behind it, and
 *  an idle timer.
 *
 *  An event is one callback or one promise continuation.  A start that settles and the continuations
 *  of the connections that awaited it are one event, as no other callback can come between them.
 *  Time is in milliseconds and timers are punctual: time does not pass a timer that is due. */
module OnDemand {
  import opened Options

  type ConnId = nat

  /** A client socket: whether it was destroyed or closed, and how often it was connected to the service. */
  datatype Socket = Socket(gone: bool, pipes: nat)

  /** What has happened: starts begun and settled, and when `onIdleStop` fired. */
  datatype History = History(begun: nat, settled: nat, idleStops: seq<nat>)

  datatype Proxy = Proxy(
    periodMs: int,                 // timeoutMin in milliseconds
    clock: nat,
    idleTimer: Option<nat>,        // when the armed idle timer is due
    lastActivity: nat,
    startInFlight: bool,
    serviceReady: bool,
    pendingConns: seq<ConnId>,
    activeConns: set<ConnId>,
    destroyed: bool,
    sockets: seq<Socket>,
    history: History)

  predicate Fresh(s: Proxy) {
    && s.idleTimer.None? && s.lastActivity == s.clock && !s.startInFlight && !s.serviceReady && s.pendingConns == []
    && s.activeConns == {} && !s.destroyed && s.sockets == [] && s.history == History(0, 0, [])
  }

  datatype Event =
    | Advance(ms: nat)
    | Connect(alive: bool)
    | ClientCloses(conn: ConnId)
    | Data(conn: ConnId)
    | PipeEnds(conn: ConnId)               // either side of a relayed connection closed or failed
    | Activity                             // resetTimer
    | EnsureStarted(alive: bool)           // an explicit start, up to its look at the port
    | PortChecked(listening: bool)         // that look has an answer
    | StartSettles(ok: bool, threw: bool)
    | IdleTimerFires(debugging: bool)
    | Destroy

  // ---------------------------------------------------------------- the callbacks

  function Bump(s: Proxy): Proxy {
    s.(lastActivity := s.clock)
  }

  function ScheduleIdleCheck(s: Proxy): Proxy {
    s.(idleTimer := if s.periodMs <= 0 || s.destroyed then None else Some(s.clock + s.periodMs))
  }

  /** The rest of ensureStarted once the port did not answer: begin a start, or await the one in flight. */
  function BeginStart(s: Proxy): Proxy {
    s.(serviceReady := false, startInFlight := true,
       history := if s.startInFlight then s.history else s.history.(begun := s.history.begun + 1))
  }

  function Piped(sockets: seq<Socket>, c: ConnId): seq<Socket>
    requires c < |sockets|
  {
    sockets[c := sockets[c].(pipes := sockets[c].pipes + 1)]
  }

  /** handleConnection up to its await. */
  function OnConnect(s: Proxy, alive: bool): Proxy {
    if s.destroyed then s      // the server no longer listens
    else
      var c := |s.sockets|;
      var s1 := Bump(s).(sockets := s.sockets + [Socket(false, 0)]);
      if s.serviceReady && alive then
        s1.(activeConns := s.activeConns + {c}, sockets := s.sockets + [Socket(false, 1)])
      else
        BeginStart(s1.(pendingConns := s.pendingConns + [c]))
  }

  function Without(conns: seq<ConnId>, c: ConnId): seq<ConnId> {
    if conns == [] then []
    else Without(conns[..|conns| - 1], c) + if conns[|conns| - 1] == c then [] else [conns[|conns| - 1]]
  }

  function OnClientCloses(s: Proxy, c: ConnId): Proxy {
    if c >= |s.sockets| || s.sockets[c].pipes > 0 then s
    else s.(sockets := s.sockets[c := s.sockets[c].(gone := true)], pendingConns := Without(s.pendingConns, c))
  }

  function OnData(s: Proxy, c: ConnId): Proxy {
    if c in s.activeConns then Bump(s) else s
  }

  function OnPipeEnds(s: Proxy, c: ConnId): Proxy {
    if c >= |s.sockets| || s.sockets[c].pipes == 0 then s
    else Bump(s.(activeConns := s.activeConns - {c}, sockets := s.sockets[c := s.sockets[c].(gone := true)]))
  }

  /** ensureStarted up to its look at the port. */
  function OnEnsureStarted(s: Proxy, alive: bool): Proxy {
    if s.serviceReady && alive then Bump(s) else BeginStart(Bump(s))
  }

  function OnPortChecked(s: Proxy, listening: bool): Proxy {
    if listening then s else BeginStart(s)
  }

  /** The connections that waited, served or turned away. */
  function Resolved(sockets: seq<Socket>, conns: seq<ConnId>, ok: bool): seq<Socket>
  {
    if conns == [] then sockets
    else
      var done := Resolved(sockets, conns[..|conns| - 1], ok);
      var c := conns[|conns| - 1];
      if c >= |done| || done[c].gone then done
      else if ok then Piped(done, c)
      else done[c := done[c].(gone := true)]
  }

  function Served(sockets: seq<Socket>, conns: seq<ConnId>): set<ConnId> {
    set c | c in conns && c < |sockets| && !sockets[c].gone
  }

  /** The start settles, and with it every connection that awaited it. */
  function OnStartSettles(s: Proxy, ok: bool, threw: bool): Proxy {
    if !s.startInFlight then s
    else
      var ready := ok && !threw;
      var s1 := s.(startInFlight := false, serviceReady := if ready && !s.destroyed then true else s.serviceReady,
                   history := s.history.(settled := s.history.settled + 1));
      var s2 := if threw then s1 else ScheduleIdleCheck(s1);
      s2.(pendingConns := [], sockets := Resolved(s.sockets, s.pendingConns, ready),
          activeConns := if ready then s.activeConns + Served(s.sockets, s.pendingConns) else s.activeConns)
  }

  predicate Busy(s: Proxy) {
    s.activeConns != {} || s.startInFlight || s.pendingConns != [] || s.clock - s.lastActivity < s.periodMs
  }

  predicate TimerDue(s: Proxy) {
    s.idleTimer.Some? && s.idleTimer.value <= s.clock
  }

  function OnIdleTimer(s: Proxy, debugging: bool): Proxy {
    if !TimerDue(s) then s
    else if Busy(s) || debugging then ScheduleIdleCheck(s)
    else s.(idleTimer := None, serviceReady := false,
            history := s.history.(idleStops := s.history.idleStops + [s.clock]))
  }

  function OnDestroy(s: Proxy): Proxy {
    s.(destroyed := true, idleTimer := None,
       sockets := seq(|s.sockets|, c requires 0 <= c < |s.sockets| =>
                      if c in s.pendingConns || c in s.activeConns then s.sockets[c].(gone := true) else s.sockets[c]))
  }

  /** Time passes, but not beyond a timer that is due. */
  function OnAdvance(s: Proxy, ms: nat): Proxy {
    if s.idleTimer.Some? && s.idleTimer.value < s.clock + ms then s else s.(clock := s.clock + ms)
  }

  function Step(s: Proxy, e: Event): Proxy {
    match e
    case Advance(ms) => OnAdvance(s, ms)
    case Connect(alive) => OnConnect(s, alive)
    case ClientCloses(c) => OnClientCloses(s, c)
    case Data(c) => OnData(s, c)
    case PipeEnds(c) => OnPipeEnds(s, c)
    case Activity => Bump(s)
    case EnsureStarted(alive) => OnEnsureStarted(s, alive)
    case PortChecked(listening) => OnPortChecked(s, listening)
    case StartSettles(ok, threw) => OnStartSettles(s, ok, threw)
    case IdleTimerFires(debugging) => OnIdleTimer(s, debugging)
    case Destroy => OnDestroy(s)
  }

  function Run(s: Proxy, events: seq<Event>): Proxy
    decreases |events|
  {
    if events == [] then s else Run(Step(s, events[0]), events[1..])
  }
}
