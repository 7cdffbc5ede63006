/** What becomes of every connection, and when the service is started, ready, idle and stopped. */
module OnDemandOutcomes {
  import opened Options
  import opened OnDemand
  import opened OnDemandSafety

  // ---------------------------------------------------------------- where connections go

  function PlaceOf(s: Proxy, c: ConnId): Place
    requires c < |s.sockets|
  {
    if s.sockets[c].gone then Closed else if c in s.pendingConns then Waiting else Relayed
  }

  /** The client went away while it waited, its pipe ended, the start it waited for failed, or the proxy was
   *  taken down. */
  predicate ClosedBy(s: Proxy, e: Event, c: ConnId) {
    c < |s.sockets| && !s.sockets[c].gone &&
    match PlaceOf(s, c)
    case Waiting =>
      e == ClientCloses(c) || e.Destroy? || (e.StartSettles? && (!e.ok || e.threw))
    case Relayed => e == PipeEnds(c) || e.Destroy?
    case Closed => false
  }

  /** Where a connection is after the event that was here before it. */
  function Goes(s: Proxy, e: Event, c: ConnId): Place
    requires c < |s.sockets|
  {
    var place := PlaceOf(s, c);
    if ClosedBy(s, e, c) then Closed
    else if place.Waiting? && e.StartSettles? then Relayed
    else place
  }

  /** Every connection is where this says, and a new one is relayed at once if the service is ready and alive,
   *  and otherwise waits behind a start in flight. */
  ghost predicate PlacesAre(s: Proxy, e: Event, s': Proxy) {
    && (forall c: ConnId :: c < |s.sockets| ==> c < |s'.sockets| && IsAt(s', c, Goes(s, e, c)))
    && if e.Connect? && !s.destroyed then
         && |s'.sockets| == |s.sockets| + 1
         && IsAt(s', |s.sockets|, if s.serviceReady && e.alive then Relayed else Waiting)
         && (IsAt(s', |s.sockets|, Waiting) ==> s'.startInFlight)
       else |s'.sockets| == |s.sockets|
  }

  lemma OpenIsSomewhere(s: Proxy, c: ConnId)
    requires Inv(s) && c < |s.sockets|
    ensures IsAt(s, c, PlaceOf(s, c))
  {
    assert SocketOk(s, c);
  }

  lemma ConnectPlaces(s: Proxy, alive: bool)
    requires Inv(s)
    ensures PlacesAre(s, Connect(alive), OnConnect(s, alive))
  {
    forall c: ConnId | c < |s.sockets| ensures IsAt(OnConnect(s, alive), c, Goes(s, Connect(alive), c)) {
      OpenIsSomewhere(s, c);
    }
  }

  lemma ClosePlaces(s: Proxy, x: ConnId)
    requires Inv(s)
    ensures PlacesAre(s, ClientCloses(x), OnClientCloses(s, x)) && PlacesAre(s, PipeEnds(x), OnPipeEnds(s, x))
  {
    WithoutSpec(s.pendingConns, x);
    forall c: ConnId | c < |s.sockets|
      ensures IsAt(OnClientCloses(s, x), c, Goes(s, ClientCloses(x), c))
      ensures IsAt(OnPipeEnds(s, x), c, Goes(s, PipeEnds(x), c))
    {
      assert SocketOk(s, c);
    }
  }

  lemma SettlePlaces(s: Proxy, ok: bool, threw: bool)
    requires Inv(s)
    ensures PlacesAre(s, StartSettles(ok, threw), OnStartSettles(s, ok, threw))
  {
    ResolvedSpec(s.sockets, s.pendingConns, ok && !threw);
    forall c: ConnId | c < |s.sockets|
      ensures c < |OnStartSettles(s, ok, threw).sockets|
      ensures IsAt(OnStartSettles(s, ok, threw), c, Goes(s, StartSettles(ok, threw), c))
    {
      assert SocketOk(s, c);
    }
  }

  lemma DestroyPlaces(s: Proxy)
    requires Inv(s)
    ensures PlacesAre(s, Destroy, OnDestroy(s))
  {
    forall c: ConnId | c < |s.sockets| ensures IsAt(OnDestroy(s), c, Goes(s, Destroy, c)) { assert SocketOk(s, c); }
  }

  lemma OthersPlace(s: Proxy, e: Event)
    requires Inv(s)
    requires e.Advance? || e.Data? || e.Activity? || e.EnsureStarted? || e.PortChecked? || e.IdleTimerFires?
    ensures PlacesAre(s, e, Step(s, e))
  {
    forall c: ConnId | c < |s.sockets| ensures IsAt(Step(s, e), c, Goes(s, e, c)) { assert SocketOk(s, c); }
  }

  lemma StepPlaces(s: Proxy, e: Event)
    requires Inv(s)
    ensures PlacesAre(s, e, Step(s, e))
  {
    hide PlacesAre;
    match e
    case Connect(alive) => ConnectPlaces(s, alive);
    case ClientCloses(c) => ClosePlaces(s, c);
    case PipeEnds(c) => ClosePlaces(s, c);
    case StartSettles(ok, threw) => SettlePlaces(s, ok, threw);
    case Destroy => DestroyPlaces(s);
    case _ => OthersPlace(s, e);
  }

  /** From any state that a proxy reaches and that is not taken down: a new connection is relayed if the service
   *  is ready and alive, and otherwise waits behind a start in flight; every other connection stays. */
  lemma NewConnectionGoes(s: Proxy, events: seq<Event>, alive: bool)
    requires Fresh(s) && !Run(s, events).destroyed
    ensures var k := Run(s, events);
            var f, c := Step(k, Connect(alive)), |k.sockets|;
            && |f.sockets| == c + 1
            && IsAt(f, c, if k.serviceReady && alive then Relayed else Waiting)
            && (IsAt(f, c, Waiting) ==> f.startInFlight)
            && forall x: ConnId :: x < c ==> IsAt(f, x, PlaceOf(k, x))
  {
    var k := Run(s, events);
    ReachableInv(s, events);
    StepPlaces(k, Connect(alive));
    hide Run, Step, Inv;
    forall x: ConnId | x < |k.sockets| ensures IsAt(Step(k, Connect(alive)), x, PlaceOf(k, x)) {
      assert Goes(k, Connect(alive), x) == PlaceOf(k, x);
    }
  }

  /** And it is served in the end, if it has to wait for a start that comes up. */
  lemma NewConnectionIsServed(s: Proxy, events: seq<Event>, alive: bool)
    requires Fresh(s) && !Run(s, events).destroyed
    ensures var k := Run(s, events);
            var f := Step(Step(k, Connect(alive)), StartSettles(true, false));
            |k.sockets| < |f.sockets| && IsAt(f, |k.sockets|, Relayed)
  {
    var k := Run(s, events);
    ReachableInv(s, events);
    StepKeeps(k, Connect(alive));
    StepPlaces(k, Connect(alive));
    StepPlaces(Step(k, Connect(alive)), StartSettles(true, false));
    hide Run, Step, Inv;
    assert Goes(Step(k, Connect(alive)), StartSettles(true, false), |k.sockets|) == Relayed;
  }

  /** In some step of the run the connection was closed for one of the reasons above. */
  predicate ClosedDuring(s: Proxy, events: seq<Event>, c: ConnId)
    decreases |events|
  {
    events != [] && (ClosedBy(s, events[0], c) || ClosedDuring(Step(s, events[0]), events[1..], c))
  }

  lemma {:induction false} RunCloses(s: Proxy, events: seq<Event>, c: ConnId)
    requires Inv(s)
    ensures var f := Run(s, events);
            c < |f.sockets| ==>
              (f.sockets[c].gone <==> (c < |s.sockets| && s.sockets[c].gone) || ClosedDuring(s, events, c))
    decreases |events|
  {
    if events != [] {
      StepKeeps(s, events[0]);
      StepPlaces(s, events[0]);
      hide Inv, Step;
      RunCloses(Step(s, events[0]), events[1..], c);
      if c >= |s.sockets| { NoneYet(s, events[0], c); }
      else { assert IsAt(Step(s, events[0]), c, Goes(s, events[0], c)); }
    }
  }

  lemma NoneYet(s: Proxy, e: Event, c: ConnId)
    requires PlacesAre(s, e, Step(s, e)) && |s.sockets| <= c
    ensures !ClosedBy(s, e, c) && (c < |Step(s, e).sockets| ==> !Step(s, e).sockets[c].gone)
  {
    hide Step;
  }

  /** Over any run a connection is closed exactly when its client went away while it waited, its pipe ended,
   *  the start it waited for failed, or the proxy was taken down. */
  lemma ClosedExactlyBecause(s: Proxy, events: seq<Event>, c: ConnId)
    requires Fresh(s) && c < |Run(s, events).sockets|
    ensures IsAt(Run(s, events), c, Closed) <==> ClosedDuring(s, events, c)
  {
    assert Inv(s);
    RunCloses(s, events, c);
    hide Run;
  }

  // ---------------------------------------------------------------- starts, readiness and idleness

  /** Somebody needs the service and cannot be sure that it is there. */
  predicate Needs(s: Proxy, e: Event) {
    || (e.Connect? && !s.destroyed && !(s.serviceReady && e.alive))
    || (e.EnsureStarted? && !(s.serviceReady && e.alive))
    || (e.PortChecked? && !e.listening)
  }

  /** The idle timer finds nobody connected, nobody waiting, no start under way, no traffic for a whole period,
   *  and no inspector on. */
  predicate FindsItIdle(s: Proxy, e: Event) {
    && e.IdleTimerFires? && s.idleTimer.Some? && s.idleTimer.value <= s.clock && !e.debugging
    && s.activeConns == {} && s.pendingConns == [] && !s.startInFlight && s.clock - s.lastActivity >= s.periodMs
  }

  predicate ComesUp(s: Proxy, e: Event) {
    e.StartSettles? && s.startInFlight && e.ok && !e.threw
  }

  /** A start is begun exactly when somebody needs one and none is in flight, and ends when it settles; the
   *  service is ready from a start that came up until somebody needs another or it is stopped for being idle. */
  predicate StartsAre(s: Proxy, e: Event, s': Proxy) {
    && (s'.startInFlight <==> Needs(s, e) || (s.startInFlight && !e.StartSettles?))
    && s'.history.begun == s.history.begun + (if Needs(s, e) && !s.startInFlight then 1 else 0)
    && s'.history.settled == s.history.settled + (if s.startInFlight && e.StartSettles? then 1 else 0)
    && (s'.serviceReady <==> (ComesUp(s, e) && !s.destroyed)
                             || (s.serviceReady && !Needs(s, e) && !FindsItIdle(s, e)))
    && (s'.destroyed <==> s.destroyed || e.Destroy?)
  }

  /** What counts as traffic. */
  predicate IsActivity(s: Proxy, e: Event) {
    || (e.Connect? && !s.destroyed) || e.Activity? || e.EnsureStarted?
    || (e.Data? && e.conn in s.activeConns)
    || (e.PipeEnds? && e.conn < |s.sockets| && s.sockets[e.conn].pipes > 0)
  }

  /** When the idle timer is armed anew: after a start that did not throw, whether or not it came up, and when
   *  it went off and the service is in use. */
  predicate Rearms(s: Proxy, e: Event) {
    || (e.StartSettles? && s.startInFlight && !e.threw)
    || (e.IdleTimerFires? && s.idleTimer.Some? && s.idleTimer.value <= s.clock && !FindsItIdle(s, e))
  }

  /** The service is stopped for being idle exactly when the timer finds it so, and once; the timer runs one
   *  period from where it was armed, and traffic does not move it nor time pass it. */
  predicate TimesAre(s: Proxy, e: Event, s': Proxy) {
    && s'.clock == s.clock + (if e.Advance? && (s.idleTimer.None? || s.clock + e.ms <= s.idleTimer.value) then e.ms
                              else 0)
    && s'.lastActivity == (if IsActivity(s, e) then s.clock else s.lastActivity)
    && s'.history.idleStops == s.history.idleStops + (if FindsItIdle(s, e) then [s.clock] else [])
    && (s'.idleTimer == if Rearms(s, e) then (if s.periodMs > 0 && !s.destroyed then Some(s.clock + s.periodMs)
                                              else None)
                        else if FindsItIdle(s, e) || e.Destroy? then None else s.idleTimer)
  }

  lemma ConnectServes(s: Proxy, alive: bool, flag: bool)
    ensures var e, s' := Connect(alive), OnConnect(s, alive); StartsAre(s, e, s') && TimesAre(s, e, s')
    ensures var e, s' := EnsureStarted(alive), OnEnsureStarted(s, alive); StartsAre(s, e, s') && TimesAre(s, e, s')
    ensures var e, s' := PortChecked(flag), OnPortChecked(s, flag); StartsAre(s, e, s') && TimesAre(s, e, s')
  {}

  lemma CloseServes(s: Proxy, c: ConnId)
    ensures var e, s' := ClientCloses(c), OnClientCloses(s, c); StartsAre(s, e, s') && TimesAre(s, e, s')
    ensures var e, s' := Data(c), OnData(s, c); StartsAre(s, e, s') && TimesAre(s, e, s')
    ensures var e, s' := PipeEnds(c), OnPipeEnds(s, c); StartsAre(s, e, s') && TimesAre(s, e, s')
  {
    hide Without;
  }

  lemma SettleServes(s: Proxy, ok: bool, threw: bool)
    ensures var e, s' := StartSettles(ok, threw), OnStartSettles(s, ok, threw);
            StartsAre(s, e, s') && TimesAre(s, e, s')
  {
    hide Resolved, Served;
  }

  lemma TimeServes(s: Proxy, ms: nat, debugging: bool)
    ensures var e, s' := Advance(ms), OnAdvance(s, ms); StartsAre(s, e, s') && TimesAre(s, e, s')
    ensures var e, s' := IdleTimerFires(debugging), OnIdleTimer(s, debugging);
            StartsAre(s, e, s') && TimesAre(s, e, s')
    ensures StartsAre(s, Activity, Bump(s)) && TimesAre(s, Activity, Bump(s))
  {}

  lemma DestroyServes(s: Proxy)
    ensures StartsAre(s, Destroy, OnDestroy(s)) && TimesAre(s, Destroy, OnDestroy(s))
  {}

  /** One step of any run, as the service and its starter see it. */
  lemma StepServes(s: Proxy, e: Event)
    ensures StartsAre(s, e, Step(s, e)) && TimesAre(s, e, Step(s, e))
  {
    hide StartsAre, TimesAre;
    match e
    case Connect(alive) => ConnectServes(s, alive, true);
    case EnsureStarted(alive) => ConnectServes(s, alive, true);
    case PortChecked(listening) => ConnectServes(s, true, listening);
    case ClientCloses(c) => CloseServes(s, c);
    case Data(c) => CloseServes(s, c);
    case PipeEnds(c) => CloseServes(s, c);
    case StartSettles(ok, threw) => SettleServes(s, ok, threw);
    case Advance(ms) => TimeServes(s, ms, false);
    case IdleTimerFires(debugging) => TimeServes(s, 0, debugging);
    case Activity => TimeServes(s, 0, false);
    case Destroy => DestroyServes(s);
  }
}
