/** What the on-demand proxy keeps: one start at a time, every connection accounted for, an idle timer
 *  behind every ready service, and the time at which an idle service is stopped. */
module OnDemandSafety {
  import opened Options
  import opened OnDemand

  // ---------------------------------------------------------------- what every callback keeps

  ghost predicate SocketOk(s: Proxy, c: int) {
    0 <= c < |s.sockets| ==>
      var k := s.sockets[c];
      && k.pipes <= 1
      && (c in s.pendingConns ==> k.pipes == 0 && (k.gone ==> s.destroyed))
      && (c in s.activeConns ==> k.pipes == 1)
      && (!k.gone ==> c in s.pendingConns || c in s.activeConns)
  }

  predicate Distinct(conns: seq<ConnId>) {
    forall i, j :: 0 <= i < j < |conns| ==> conns[i] != conns[j]
  }

  ghost predicate Listed(s: Proxy) {
    && Distinct(s.pendingConns)
    && (forall c :: c in s.pendingConns ==> c < |s.sockets|)
    && (forall c :: c in s.activeConns ==> c < |s.sockets|)
    && (forall c :: SocketOk(s, c))
  }

  predicate OneStart(s: Proxy) {
    && s.history.begun == s.history.settled + (if s.startInFlight then 1 else 0)
    && (s.pendingConns != [] ==> s.startInFlight)
  }

  predicate TimerOk(s: Proxy) {
    && s.lastActivity <= s.clock
    && (s.idleTimer.Some? ==> !s.destroyed && s.clock <= s.idleTimer.value <= s.clock + s.periodMs)
    && (s.serviceReady && !s.destroyed && s.periodMs > 0 ==> s.idleTimer.Some?)
  }

  ghost predicate Inv(s: Proxy) {
    Listed(s) && OneStart(s) && TimerOk(s)
  }

  lemma {:induction false} WithoutSpec(conns: seq<ConnId>, c: ConnId)
    requires Distinct(conns)
    ensures Distinct(Without(conns, c))
    ensures forall x :: x in Without(conns, c) <==> x in conns && x != c
  {
    if conns != [] {
      var init, last := conns[..|conns| - 1], conns[|conns| - 1];
      WithoutSpec(init, c);
      var w := Without(init, c);
      assert conns == init + [last];
      forall x | x in init ensures x != last {
        var i :| 0 <= i < |init| && init[i] == x;
        assert conns[i] == x;
      }
      forall i | 0 <= i < |w| ensures w[i] != last { assert w[i] in w; }
    }
  }

  /** What becomes of one socket when a start settles. */
  function Fate(k: Socket, waiting: bool, ok: bool): Socket {
    if !waiting || k.gone then k else if ok then k.(pipes := k.pipes + 1) else k.(gone := true)
  }

  lemma {:induction false} ResolvedSpec(sockets: seq<Socket>, conns: seq<ConnId>, ok: bool)
    requires Distinct(conns) && forall c :: c in conns ==> c < |sockets|
    ensures |Resolved(sockets, conns, ok)| == |sockets|
    ensures forall c :: 0 <= c < |sockets| ==> Resolved(sockets, conns, ok)[c] == Fate(sockets[c], c in conns, ok)
  {
    if conns != [] {
      var init, last := conns[..|conns| - 1], conns[|conns| - 1];
      assert conns == init + [last];
      assert forall i :: 0 <= i < |init| ==> init[i] == conns[i] != last;
      assert forall c :: c in init ==> c in conns;
      ResolvedSpec(sockets, init, ok);
    }
  }

  lemma ConnectKeeps(s: Proxy, alive: bool)
    requires Inv(s)
    ensures Inv(OnConnect(s, alive))
  {
    var s' := OnConnect(s, alive);
    assert forall i :: 0 <= i < |s.pendingConns| ==> s.pendingConns[i] in s.pendingConns;
    assert !s.destroyed ==> |s'.sockets| == |s.sockets| + 1;
    forall c ensures SocketOk(s', c) { assert SocketOk(s, c); }
  }

  lemma CloseKeeps(s: Proxy, c: ConnId)
    requires Inv(s)
    ensures Inv(OnClientCloses(s, c)) && Inv(OnPipeEnds(s, c))
  {
    WithoutSpec(s.pendingConns, c);
    var s1, s2 := OnClientCloses(s, c), OnPipeEnds(s, c);
    assert SocketOk(s, c);
    forall x ensures SocketOk(s1, x) { assert SocketOk(s, x); }
    forall x ensures SocketOk(s2, x) { assert SocketOk(s, x); }
    assert s1.pendingConns != [] ==> s.pendingConns != [] by {
      if s1.pendingConns != [] { assert s1.pendingConns[0] in s.pendingConns; }
    }
  }

  lemma SettleKeeps(s: Proxy, ok: bool, threw: bool)
    requires Inv(s)
    ensures Inv(OnStartSettles(s, ok, threw))
  {
    ResolvedSpec(s.sockets, s.pendingConns, ok && !threw);
    var s' := OnStartSettles(s, ok, threw);
    forall c ensures SocketOk(s', c) { assert SocketOk(s, c); }
  }

  lemma DestroyKeeps(s: Proxy)
    requires Inv(s)
    ensures Inv(OnDestroy(s))
  {
    var s' := OnDestroy(s);
    forall c ensures SocketOk(s', c) { assert SocketOk(s, c); }
  }

  lemma OthersKeep(s: Proxy, e: Event)
    requires Inv(s)
    requires e.Advance? || e.Data? || e.Activity? || e.EnsureStarted? || e.PortChecked? || e.IdleTimerFires?
    ensures Inv(Step(s, e))
  {
    var s' := Step(s, e);
    forall c ensures SocketOk(s', c) { assert SocketOk(s, c); }
  }

  lemma StepKeeps(s: Proxy, e: Event)
    requires Inv(s)
    ensures Inv(Step(s, e))
  {
    match e
    case Connect(alive) => ConnectKeeps(s, alive);
    case ClientCloses(c) => CloseKeeps(s, c);
    case PipeEnds(c) => CloseKeeps(s, c);
    case StartSettles(ok, threw) => SettleKeeps(s, ok, threw);
    case Destroy => DestroyKeeps(s);
    case _ => OthersKeep(s, e);
  }

  lemma {:induction false} RunKeeps(s: Proxy, events: seq<Event>)
    requires Inv(s)
    ensures Inv(Run(s, events))
    decreases |events|
  {
    if events != [] {
      StepKeeps(s, events[0]);
      RunKeeps(Step(s, events[0]), events[1..]);
    }
  }

  lemma ReachableInv(s: Proxy, events: seq<Event>)
    requires Fresh(s)
    ensures Inv(Run(s, events))
  {
    assert Inv(s);
    RunKeeps(s, events);
  }

  // ---------------------------------------------------------------- connections and starts

  datatype Place = Waiting | Relayed | Closed

  predicate IsAt(s: Proxy, c: ConnId, place: Place)
    requires c < |s.sockets|
  {
    match place
    case Waiting => c in s.pendingConns && !s.sockets[c].gone
    case Relayed => c in s.activeConns && !s.sockets[c].gone
    case Closed => s.sockets[c].gone
  }

  /** At any time every accepted connection waits, is relayed or is closed, and only one of these; it
   *  has been connected to the service at most once, and not while it waits. */
  lemma EveryConnectionIsSomewhere(s: Proxy, events: seq<Event>, c: ConnId)
    requires Fresh(s) && c < |Run(s, events).sockets|
    ensures var f := Run(s, events);
            && f.sockets[c].pipes <= 1
            && (exists place :: IsAt(f, c, place) && forall other :: IsAt(f, c, other) ==> other == place)
            && (IsAt(f, c, Waiting) ==> f.sockets[c].pipes == 0) && (IsAt(f, c, Relayed) ==> f.sockets[c].pipes == 1)
  {
    ReachableInv(s, events);
    var f := Run(s, events);
    assert SocketOk(f, c);
    var place := if f.sockets[c].gone then Closed else if c in f.pendingConns then Waiting else Relayed;
    assert IsAt(f, c, place);
    forall other | IsAt(f, c, other) ensures other == place {}
  }

  /** There is never a second `onDemandStart` beside the first. */
  lemma OneStartAtATime(s: Proxy, events: seq<Event>)
    requires Fresh(s)
    ensures var f := Run(s, events);
            f.history.settled <= f.history.begun <= f.history.settled + 1
            && (f.history.begun == f.history.settled + 1 <==> f.startInFlight)
  {
    ReachableInv(s, events);
  }

  /** When a start settles nobody is left waiting: those still there are relayed if the service came
   *  up, and closed if it did not. */
  lemma NobodyIsLeftWaiting(s: Proxy, events: seq<Event>, ok: bool, threw: bool, c: ConnId)
    requires Fresh(s) && c < |Run(s, events).sockets| && IsAt(Run(s, events), c, Waiting)
    ensures var f := Step(Run(s, events), StartSettles(ok, threw));
            && f.pendingConns == [] && c < |f.sockets|
            && IsAt(f, c, if ok && !threw then Relayed else Closed)
  {
    ReachableInv(s, events);
    var k := Run(s, events);
    ResolvedSpec(k.sockets, k.pendingConns, ok && !threw);
    assert SocketOk(k, c);
  }

  /** A ready service behind a proxy with a timeout always has its idle timer armed. */
  lemma ReadyMeansArmed(s: Proxy, events: seq<Event>)
    requires Fresh(s) && Run(s, events).serviceReady && !Run(s, events).destroyed && s.periodMs > 0
    ensures Run(s, events).idleTimer.Some?
  {
    ReachableInv(s, events);
    PeriodIsFixed(s, events);
  }

  lemma {:induction false} PeriodIsFixed(s: Proxy, events: seq<Event>)
    ensures Run(s, events).periodMs == s.periodMs
    decreases |events|
  {
    if events != [] { PeriodIsFixed(Step(s, events[0]), events[1..]); }
  }

  /** After `destroy` the service is never stopped for being idle, whatever still happens. */
  lemma {:induction false} NoIdleStopAfterDestroy(s: Proxy, events: seq<Event>)
    requires Inv(s) && s.destroyed
    ensures var f := Run(s, events); f.destroyed && f.history.idleStops == s.history.idleStops
    decreases |events|
  {
    if events != [] {
      StepKeeps(s, events[0]);
      NoIdleStopAfterDestroy(Step(s, events[0]), events[1..]);
    }
  }

  // ---------------------------------------------------------------- idle time

  /** Only time passes, and the idle timer fires with no inspector on. */
  predicate Silent(events: seq<Event>) {
    forall i :: 0 <= i < |events| ==> events[i].Advance? || events[i] == IdleTimerFires(false)
  }

  /** Nothing is going on: the clock stands at the last activity, or at the end of the start if later,
   *  whether that start brought the service up or timed out. */
  predicate Resting(s: Proxy) {
    && !s.destroyed && s.periodMs > 0 && s.idleTimer.Some?
    && !s.startInFlight && s.activeConns == {} && s.pendingConns == []
    && (s.lastActivity == s.clock || s.idleTimer.value == s.clock + s.periodMs)
  }

  /** When the timer that is armed now, or the next one, will find the service idle. */
  function StopTime(s: Proxy): int
    requires s.idleTimer.Some?
  {
    if s.idleTimer.value >= s.lastActivity + s.periodMs then s.idleTimer.value else s.idleTimer.value + s.periodMs
  }

  predicate Undisturbed(s: Proxy) {
    && s.idleTimer.Some? && s.periodMs > 0 && !s.destroyed
    && !s.startInFlight && s.activeConns == {} && s.pendingConns == []
  }

  lemma {:induction false} SilenceStops(s: Proxy, events: seq<Event>)
    requires TimerOk(s) && Undisturbed(s) && Silent(events)
    ensures var f := Run(s, events);
            if f.history.idleStops == s.history.idleStops then f.idleTimer.Some? && f.clock <= StopTime(s)
            else && f.history.idleStops == s.history.idleStops + [StopTime(s)] && StopTime(s) <= f.clock
                 && f.idleTimer.None? && !f.serviceReady
    decreases |events|
  {
    if events != [] {
      var s1, rest := Step(s, events[0]), events[1..];
      assert events[0].Advance? || events[0] == IdleTimerFires(false);
      if s1.idleTimer.Some? {
        SilenceStops(s1, rest);
      } else {
        SilenceLasts(s1, rest);
      }
    }
  }

  /** Without a timer nothing more happens. */
  lemma {:induction false} SilenceLasts(s: Proxy, events: seq<Event>)
    requires s.idleTimer.None? && Silent(events)
    ensures var f := Run(s, events);
            f.history == s.history && f.idleTimer.None? && f.serviceReady == s.serviceReady && s.clock <= f.clock
    decreases |events|
  {
    if events != [] {
      assert events[0].Advance? || events[0] == IdleTimerFires(false);
      SilenceLasts(Step(s, events[0]), events[1..]);
    }
  }

  /** With q the later of last activity and start completion and nothing after it, the service is
   *  stopped for being idle exactly once, at a time in [q + P, q + 2P): it has not happened before
   *  that time, cannot happen again, and time does not pass it by. */
  lemma IdleStopsOnceInTime(s0: Proxy, before: seq<Event>, events: seq<Event>)
    requires Fresh(s0) && Resting(Run(s0, before)) && Silent(events)
    ensures var s := Run(s0, before);
            var f := Run(s, events);
            var at := StopTime(s);
            && s.clock + s.periodMs <= at < s.clock + 2 * s.periodMs
            && (f.history.idleStops == s.history.idleStops || f.history.idleStops == s.history.idleStops + [at])
            && (f.clock < at ==> f.history.idleStops == s.history.idleStops)
            && (f.clock > at ==> f.history.idleStops == s.history.idleStops + [at])
  {
    ReachableInv(s0, before);
    SilenceStops(Run(s0, before), events);
  }
}
