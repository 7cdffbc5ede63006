/** createLazyProxy as it is written: its variables, and the callbacks that change them. */
module LazyProxies {
  import opened Options
  import opened OnDemand
  import opened OnDemandSafety

  class LazyProxy {
    const timeoutMin: int
    var clock: nat
    var idleTimer: Option<nat>
    var lastActivity: nat
    var startInFlight: bool
    var serviceReady: bool
    var pendingConns: seq<ConnId>
    var activeConns: set<ConnId>
    var destroyed: bool
    var sockets: seq<Socket>
    ghost var history: History

    constructor (timeoutMin: int, now: nat)
      ensures View().periodMs == timeoutMin * 60000 && clock == now && Fresh(View())
    {
      this.timeoutMin, clock, idleTimer, lastActivity := timeoutMin, now, None, now;
      startInFlight, serviceReady, pendingConns, activeConns, destroyed := false, false, [], {}, false;
      sockets, history := [], History(0, 0, []);
    }

    ghost function View(): Proxy
      reads this
    {
      Proxy(timeoutMin * 60000, clock, idleTimer, lastActivity, startInFlight, serviceReady, pendingConns,
            activeConns, destroyed, sockets, history)
    }

    method BumpActivity()
      modifies `lastActivity
      ensures View() == Bump(old(View()))
    {
      lastActivity := clock;
    }

    method ScheduleIdleCheck()
      modifies `idleTimer
      ensures View() == OnDemand.ScheduleIdleCheck(old(View()))
    {
      idleTimer := None;
      if timeoutMin <= 0 || destroyed { return; }
      var periodMs := timeoutMin * 60000;
      idleTimer := Some(clock + periodMs);
    }

    /** pipeToTarget. */
    method PipeToTarget(c: ConnId)
      requires c < |sockets|
      modifies `activeConns, `sockets
      ensures activeConns == old(activeConns) + {c} && sockets == Piped(old(sockets), c)
    {
      activeConns := activeConns + {c};
      sockets := sockets[c := sockets[c].(pipes := sockets[c].pipes + 1)];
    }

    /** The part of ensureStarted that begins a start unless one is in flight. */
    method AwaitStart()
      modifies `serviceReady, `startInFlight, `history
      ensures View() == BeginStart(old(View()))
    {
      serviceReady := false;
      if !startInFlight {
        startInFlight := true;
        history := history.(begun := history.begun + 1);
      }
    }

    /** ensureStarted up to its look at the port; the answer says that it looks. */
    method EnsureStarted(alive: bool) returns (looks: bool)
      modifies `lastActivity, `serviceReady, `startInFlight, `history
      ensures View() == OnEnsureStarted(old(View()), alive) && (looks <==> old(serviceReady) && alive)
    {
      BumpActivity();
      if serviceReady && alive { return true; }
      AwaitStart();
      return false;
    }

    method PortChecked(listening: bool)
      modifies `serviceReady, `startInFlight, `history
      ensures View() == OnPortChecked(old(View()), listening)
    {
      if listening { return; }
      AwaitStart();
    }

    /** handleConnection up to its await. */
    method HandleConnection(alive: bool) returns (c: ConnId)
      requires !destroyed
      modifies this
      ensures c == |old(sockets)| && View() == OnConnect(old(View()), alive)
    {
      c := |sockets|;
      sockets := sockets + [Socket(false, 0)];
      BumpActivity();
      if serviceReady && alive {
        PipeToTarget(c);
        return;
      }
      pendingConns := pendingConns + [c];
      var _ := EnsureStarted(alive);
    }

    /** The filter that forgets a waiting client. */
    method Forget(c: ConnId)
      modifies `pendingConns
      ensures pendingConns == Without(old(pendingConns), c)
    {
      var kept: seq<ConnId> := [];
      for i := 0 to |pendingConns|
        invariant kept == Without(pendingConns[..i], c)
      {
        assert pendingConns[..i + 1][..i] == pendingConns[..i];
        if pendingConns[i] != c { kept := kept + [pendingConns[i]]; }
      }
      assert pendingConns[..|pendingConns|] == pendingConns;
      pendingConns := kept;
    }

    /** A client that was not relayed yet closes. */
    method ClientCloses(c: ConnId)
      requires c < |sockets| && sockets[c].pipes == 0
      modifies `sockets, `pendingConns
      ensures View() == OnClientCloses(old(View()), c)
    {
      sockets := sockets[c := sockets[c].(gone := true)];
      Forget(c);
    }

    /** cleanup of a relayed connection. */
    method PipeEnds(c: ConnId)
      requires c < |sockets| && sockets[c].pipes > 0
      modifies `sockets, `activeConns, `lastActivity
      ensures View() == OnPipeEnds(old(View()), c)
    {
      activeConns := activeConns - {c};
      if !sockets[c].gone { sockets := sockets[c := sockets[c].(gone := true)]; }
      else { assert sockets[c := sockets[c].(gone := true)] == sockets; }
      BumpActivity();
    }

    /** What handleConnection does with the connections it took off the queue. */
    method Resolve(conns: seq<ConnId>, ok: bool)
      requires Distinct(conns) && forall c :: c in conns ==> c < |sockets|
      modifies `sockets, `activeConns
      ensures sockets == Resolved(old(sockets), conns, ok)
      ensures activeConns == if ok then old(activeConns) + Served(old(sockets), conns) else old(activeConns)
    {
      ghost var was := sockets;
      assert forall c :: c in conns[..0] ==> c in conns;
      for i := 0 to |conns|
        invariant sockets == Resolved(was, conns[..i], ok) && |sockets| == |was|
        invariant activeConns == if ok then old(activeConns) + Served(was, conns[..i]) else old(activeConns)
      {
        var c := conns[i];
        assert c in conns && conns[..i + 1][..i] == conns[..i] && conns[..i + 1] == conns[..i] + [c];
        assert forall x :: x in conns[..i] ==> x in conns && x != c;
        ResolvedSpec(was, conns[..i], ok);
        assert sockets[c] == was[c];
        if !sockets[c].gone {
          if ok { PipeToTarget(c); } else { sockets := sockets[c := sockets[c].(gone := true)]; }
        }
      }
      assert conns[..|conns|] == conns;
    }

    /** The start in flight settles, and everyone who awaited it goes on. */
    method StartSettles(ok: bool, threw: bool)
      requires Inv(View()) && startInFlight
      modifies this
      ensures View() == OnStartSettles(old(View()), ok, threw)
    {
      hide Resolved, Served;
      var ready := ok && !threw;
      if ready && !destroyed { serviceReady := true; }
      if !threw { ScheduleIdleCheck(); }
      startInFlight := false;
      history := history.(settled := history.settled + 1);
      var conns := pendingConns;
      pendingConns := [];
      Resolve(conns, ready);
    }

    /** The idle timer goes off; the answer says whether onIdleStop is called. */
    method IdleTimerFires(debugging: bool) returns (stops: bool)
      requires idleTimer.Some? && idleTimer.value <= clock && !destroyed
      modifies this
      ensures View() == OnIdleTimer(old(View()), debugging)
      ensures stops <==> history.idleStops != old(history.idleStops)
    {
      var periodMs := timeoutMin * 60000;
      var elapsed := clock - lastActivity;
      idleTimer := None;
      if activeConns != {} || startInFlight || |pendingConns| > 0 || elapsed < periodMs {
        ScheduleIdleCheck();
        return false;
      }
      if debugging {
        ScheduleIdleCheck();
        return false;
      }
      serviceReady := false;
      history := history.(idleStops := history.idleStops + [clock]);
      return true;
    }

    method DestroyWaiting()
      requires forall c :: c in pendingConns ==> c < |sockets|
      modifies `sockets
      ensures |sockets| == |old(sockets)|
      ensures forall c :: 0 <= c < |sockets| ==>
                sockets[c] == if c in pendingConns then old(sockets)[c].(gone := true) else old(sockets)[c]
    {
      ghost var was := sockets;
      var conns := pendingConns;
      for i := 0 to |conns|
        invariant |sockets| == |was|
        invariant forall c :: 0 <= c < |was| ==> sockets[c] == if c in conns[..i] then was[c].(gone := true) else was[c]
      {
        var c := conns[i];
        assert c in conns && conns[..i + 1] == conns[..i] + [c];
        sockets := sockets[c := sockets[c].(gone := true)];
      }
      assert conns[..|conns|] == conns;
    }

    method DestroyRelayed()
      requires forall c :: c in activeConns ==> c < |sockets|
      modifies `sockets
      ensures |sockets| == |old(sockets)|
      ensures forall c :: 0 <= c < |sockets| ==>
                sockets[c] == if c in activeConns then old(sockets)[c].(gone := true) else old(sockets)[c]
    {
      ghost var was := sockets;
      var conns, left := activeConns, activeConns;
      while left != {}
        invariant left <= conns && |sockets| == |was|
        invariant forall c :: 0 <= c < |was| ==>
              sockets[c] == if c in conns - left then was[c].(gone := true) else was[c]
        decreases |left|
      {
        var c :| c in left;
        sockets := sockets[c := sockets[c].(gone := true)];
        left := left - {c};
      }
    }

    /** destroy(). */
    method Destroy()
      requires Inv(View())
      modifies `destroyed, `idleTimer, `sockets
      ensures View() == OnDestroy(old(View()))
    {
      destroyed := true;
      idleTimer := None;
      DestroyWaiting();
      DestroyRelayed();
      assert sockets == OnDestroy(old(View())).sockets;
    }

    /** Time passes, but not beyond a timer that is due. */
    method Advance(ms: nat)
      modifies `clock
      ensures View() == OnAdvance(old(View()), ms)
    {
      if idleTimer.Some? && idleTimer.value < clock + ms { return; }
      clock := clock + ms;
    }

    /** Any callback: the variables change as the machine says. */
    method Perform(e: Event)
      requires Inv(View())
      modifies this
      ensures Inv(View()) && View() == Step(old(View()), e)
    {
      StepKeeps(View(), e);
      hide Inv;
      match e
      case Advance(ms) => Advance(ms);
      case Connect(alive) => if !destroyed { var _ := HandleConnection(alive); }
      case ClientCloses(c) => if c < |sockets| && sockets[c].pipes == 0 { ClientCloses(c); }
      case Data(c) => if c in activeConns { BumpActivity(); }
      case PipeEnds(c) => if c < |sockets| && sockets[c].pipes > 0 { PipeEnds(c); }
      case Activity => BumpActivity();
      case EnsureStarted(alive) => var _ := EnsureStarted(alive);
      case PortChecked(listening) => PortChecked(listening);
      case StartSettles(ok, threw) => if startInFlight { StartSettles(ok, threw); }
      case IdleTimerFires(debugging) => PerformTimer(debugging);
      case Destroy => Destroy();
    }

    method PerformTimer(debugging: bool)
      requires Inv(View())
      modifies this
      ensures View() == OnIdleTimer(old(View()), debugging)
    {
      if idleTimer.Some? && idleTimer.value <= clock {
        TimerMeansLive(View());
        var _ := IdleTimerFires(debugging);
      }
    }

    /** Any run of a new proxy: each accepted connection is in exactly one place and piped at most once,
     *  at most one start is under way, and a ready service has its timer armed. */
    method Live(events: seq<Event>)
      requires Fresh(View())
      modifies this
      ensures View() == Run(old(View()), events)
      ensures forall c :: 0 <= c < |sockets| ==>
                && sockets[c].pipes <= 1
                && (if sockets[c].gone then true
                    else if c in pendingConns then c !in activeConns && sockets[c].pipes == 0
                    else c in activeConns && sockets[c].pipes == 1)
      ensures history.begun == history.settled + if startInFlight then 1 else 0
      ensures serviceReady && !destroyed && timeoutMin > 0 ==> idleTimer.Some?
    {
      ghost var was := View();
      ReachableInv(was, []);
      PerformAll(events);
      forall c | 0 <= c < |sockets|
        ensures sockets[c].pipes <= 1
        ensures if sockets[c].gone then true
                else if c in pendingConns then c !in activeConns && sockets[c].pipes == 0
                else c in activeConns && sockets[c].pipes == 1
      {
        EveryConnectionIsSomewhere(was, events, c);
        SomewhereOnly(View(), c);
      }
      OneStartAtATime(was, events);
      PeriodIsFixed(was, events);
      if serviceReady && !destroyed && timeoutMin > 0 { ReadyMeansArmed(was, events); }
    }

    method PerformAll(events: seq<Event>)
      requires Inv(View())
      modifies this
      ensures Inv(View()) && View() == Run(old(View()), events)
      decreases |events|
    {
      hide Inv, Step;
      if events != [] {
        Perform(events[0]);
        PerformAll(events[1..]);
      }
    }
  }

  lemma TimerMeansLive(s: Proxy)
    requires Inv(s) && s.idleTimer.Some?
    ensures !s.destroyed
  {}

  /** In one place only: what that says about the variables. */
  lemma SomewhereOnly(s: Proxy, c: ConnId)
    requires c < |s.sockets|
    requires exists place :: IsAt(s, c, place) && forall other :: IsAt(s, c, other) ==> other == place
    requires (IsAt(s, c, Waiting) ==> s.sockets[c].pipes == 0) && (IsAt(s, c, Relayed) ==> s.sockets[c].pipes == 1)
    ensures if s.sockets[c].gone then true
            else if c in s.pendingConns then c !in s.activeConns && s.sockets[c].pipes == 0
            else c in s.activeConns && s.sockets[c].pipes == 1
  {
    assert IsAt(s, c, Waiting) && IsAt(s, c, Relayed) ==> Waiting == Relayed;
  }
}
