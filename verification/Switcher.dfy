/** switchService and the registries of proxies as they are written, on the live process manager. */
module SwitchService {
  import opened Options
  import opened Supervision
  import opened SupervisionInvariants
  import opened Provenance
  import opened Switching
  import opened SwitchClaims
  import opened SwitchSafety
  import opened ProcessManagement
  import ManagerRuns

  class Switcher {
    const mgr: ProcessManager
    const config: SwitchConfig
    var lazyProxies: map<Name, int>
    var remoteProxies: map<Name, RemoteProxy>
    var switches: seq<Switch>
    ghost var sockets: Sockets           // what the operating system knows

    /** A row that a switch captured is that of its service. */
    ghost predicate Captured(w: Switch)
      reads mgr`rows, mgr.rows
    {
      w.svc.name == w.name && w.row < |mgr.rows| && mgr.rows[w.row].svc.name == w.name
    }

    ghost predicate Valid()
      reads this, mgr, mgr.rows, mgr.children
    {
      mgr.Valid() && Inv(mgr.View()) && forall i :: 0 <= i < |switches| ==> Captured(switches[i])
    }

    ghost function View(): Stack
      reads this, mgr, mgr.rows, mgr.children
    {
      Stack(mgr.View(), Proxies(lazyProxies, remoteProxies), sockets, switches)
    }

    constructor (mgr: ProcessManager, config: SwitchConfig, ghost foreign: set<int>)
      requires mgr.Valid() && Initial(mgr.View())
      ensures this.mgr == mgr && this.config == config && sockets.foreign == foreign
      ensures Valid() && AtRest(View())
    {
      this.mgr, this.config, lazyProxies, remoteProxies, switches := mgr, config, map[], map[], [];
      sockets := Sockets({}, foreign);
    }

    /** releaseLazyProxy; the answer says whether there was one to release. */
    method ReleaseLazyProxy(name: Name) returns (released: bool)
      modifies `lazyProxies
      ensures lazyProxies == old(lazyProxies) - {name} && (released <==> name in old(lazyProxies))
    {
      released := name in lazyProxies;
      if released { lazyProxies := lazyProxies - {name}; }
      else { assert lazyProxies - {name} == lazyProxies; }
    }

    /** releaseRemoteProxy. */
    method ReleaseRemoteProxy(name: Name) returns (released: bool)
      modifies `remoteProxies
      ensures remoteProxies == old(remoteProxies) - {name} && (released <==> name in old(remoteProxies))
    {
      released := name in remoteProxies;
      if released { remoteProxies := remoteProxies - {name}; }
      else { assert remoteProxies - {name} == remoteProxies; }
    }

    /** toRemote up to its wait. */
    method LeaveLocal(name: Name)
      requires mgr.Valid()
      modifies `lazyProxies, `remoteProxies, mgr`queue, mgr.rows, mgr.children
      ensures mgr.Valid() && View() == Release(old(View()), name)
    {
      hide StopService, CancelRestart, ProcessManager.View;
      mgr.Cancel(name);
      var _ := ReleaseLazyProxy(name);
      var _ := ReleaseRemoteProxy(name);
      mgr.Stop(name);
    }

    /** toLocal up to its wait: the proxy holds the port that the process is about to want. */
    method LeaveRemote(name: Name)
      requires mgr.Valid()
      modifies `remoteProxies
      ensures mgr.Valid()
      ensures var k := old(View()); View() == k.(proxies := k.proxies.(remote := k.proxies.remote - {name}))
    {
      var _ := ReleaseRemoteProxy(name);
    }

    method AnswerAtOnce(name: Name, svc: ServiceConfig, row: RowId, goal: Goal)
      requires mgr.Valid()
      modifies `switches
      ensures mgr.Valid() && View() == Switching.Answer(old(View()), name, svc, row, goal, true)
    {
      switches := switches + [Switch(name, svc, row, goal, Answered(true))];
    }

    method BeginWait(name: Name, svc: ServiceConfig, row: RowId, goal: Goal)
      requires mgr.Valid()
      modifies `switches
      ensures mgr.Valid() && View() == Wait(old(View()), name, svc, row, goal)
    {
      switches := switches + [Switch(name, svc, row, goal, Polling(mgr.clock + PORT_RELEASE_TIMEOUT_MS))];
    }

    /** switchService up to its first look at the port. */
    method Call(name: Name, goal: Goal)
      requires mgr.Valid()
      modifies this, mgr`queue, mgr.rows, mgr.children
      ensures mgr.Valid() && View() == SwitchCall(config, old(View()), name, goal)
    {
      mgr.EntryViewed(name);
      assert View().sup == mgr.View();
      hide View, Release, Wait, Switching.Answer, ProcessManager.View;
      if name !in mgr.state { return; }
      if name !in config.services || config.services[name].name != name { return; }
      var svc, st := config.services[name], mgr.state[name];
      if goal.ToRemote? && (goal.env !in config.targets || name !in config.targets[goal.env]) { return; }
      if (if goal.ToRemote? then st.remote == Some(goal.env) else st.remote.None?) {
        AnswerAtOnce(name, svc, st.id, goal);
        return;
      }
      if goal.ToRemote? { LeaveLocal(name); } else { LeaveRemote(name); }
      BeginWait(name, svc, st.id, goal);
    }

    /** One answer of isPortBindable to waitForPortFree. */
    method Answer(i: nat, free: bool)
      requires mgr.Valid()
      requires free && IsPolling(View(), i) ==> Bindable(View(), switches[i].svc.port)
      modifies `switches
      ensures mgr.Valid() && View() == PortAnswer(old(View()), i, free)
    {
      mgr.SizesViewed();
      hide Bindable, ProcessManager.View;
      if i >= |switches| || !switches[i].phase.Polling? { return; }
      if free {
        switches := switches[i := switches[i].(phase := Cleared)];
      } else if switches[i].phase.deadline <= mgr.clock {
        switches := switches[i := switches[i].(phase := Answered(false))];
      }
    }

    /** The port was free: the remote proxy, or the local process, is next. */
    method Take(i: nat)
      requires Valid()
      modifies `switches, `remoteProxies, mgr`requests, mgr`queue, mgr.rows
      ensures mgr.Valid() && View() == Commit(old(View()), i)
    {
      hide ProcessManager.View, OnRemoteCommit, OnLocalCommit, OnStartService;
      if i >= |switches| || !switches[i].phase.Cleared? { return; }
      var w := switches[i];
      assert Captured(w);
      var st := mgr.rows[w.row];
      mgr.RowViewed(st);
      switches := switches[i := w.(phase := Answered(true))];
      if w.goal.ToRemote? {
        remoteProxies := remoteProxies[w.name := RemoteProxy(w.svc.port, w.goal.env)];
        mgr.RemoteCommit(st, w.svc, w.goal.env);
      } else {
        mgr.LocalCommit(st, w.svc);
        mgr.OnStartService(w.name);
      }
    }

    /** registerLazy. */
    method RegisterLazy(name: Name)
      requires mgr.Valid()
      modifies `lazyProxies, mgr`rows, mgr`state
      ensures mgr.Valid() && mgr.Grown() && View() == LazilyBooted(config, old(View()), name)
    {
      hide ProcessManager.View;
      if name !in config.services || config.services[name].name != name { return; }
      var svc := config.services[name];
      mgr.RegisterLazy(svc.(port := svc.port + LAZY_PORT_OFFSET));
      lazyProxies := lazyProxies[name := svc.port];
    }

    /** registerRemote, and the proxy that is created for it. */
    method RegisterRemote(name: Name, env: string)
      requires mgr.Valid()
      modifies `remoteProxies, mgr`rows, mgr`state
      ensures mgr.Valid() && mgr.Grown() && View() == RemotelyBooted(config, old(View()), name, env)
    {
      hide ProcessManager.View;
      if name !in config.services || config.services[name].name != name { return; }
      var svc := config.services[name];
      mgr.RegisterRemote(svc, env);
      remoteProxies := remoteProxies[name := RemoteProxy(svc.port, env)];
    }

    /** The manager takes the event, and the operating system takes back what a dead process had bound. */
    method LetManager(e: Event)
      requires mgr.Valid()
      modifies `sockets, mgr, mgr.rows, mgr.children
      ensures mgr.Valid() && mgr.Grown()
      ensures var k, sup := old(View()), Step(old(View()).sup, e);
              View() == k.(sup := sup, sockets := k.sockets.(bound := Reaped(k.sockets.bound, sup)))
    {
      hide ProcessManager.View, ProcessManager.Valid, Step, Reaped;
      ManagerRuns.Perform(mgr, e);
      sockets := sockets.(bound := Reaped(sockets.bound, mgr.View()));
    }

    /** onServiceRemoved. */
    method LetGo(name: Name)
      modifies `lazyProxies, `remoteProxies
      ensures lazyProxies == old(lazyProxies) - {name} && remoteProxies == old(remoteProxies) - {name}
    {
      var _ := ReleaseLazyProxy(name);
      var _ := ReleaseRemoteProxy(name);
    }

    lemma RemovalSeen(e: Event)
      requires mgr.Valid() && e.RemoveCall?
      ensures Registered(View().sup, e.name) <==> e.name in mgr.state
    {
      mgr.EntryViewed(e.name);
    }

    /** Any event of the manager; a removal is announced, and the proxies of the name are let go. */
    method Supervise(e: Event)
      requires mgr.Valid()
      modifies this, mgr, mgr.rows, mgr.children
      ensures mgr.Valid() && mgr.Grown() && View() == Supervised(old(View()), e)
    {
      hide ProcessManager.View, ProcessManager.Valid, Step, Reaped, Registered;
      if e.RemoteCommit? || e.LocalCommit? || e.RegisterLazyCall? || e.RegisterRemoteCall? { return; }
      if e.RemoveCall? { RemovalSeen(e); }
      var removed := e.RemoveCall? && e.name in mgr.state;
      LetManager(e);
      if removed { LetGo(e.name); }
    }

    lemma Recaptured()
      requires mgr.Valid() && Inv(View().sup) && RowsCaptured(View())
      ensures Valid()
    {
      mgr.SizesViewed();
      assert View().sup == mgr.View();
      forall i | 0 <= i < |switches| ensures Captured(switches[i]) {
        mgr.RowViewed(mgr.rows[switches[i].row]);
      }
    }

    lemma AllCaptured()
      requires Valid()
      ensures Inv(View().sup) && RowsCaptured(View())
    {
      mgr.SizesViewed();
      forall i | 0 <= i < |switches|
        ensures switches[i].svc.name == switches[i].name && switches[i].row < |View().sup.rows|
        ensures View().sup.rows[switches[i].row].svc.name == switches[i].name
      {
        assert Captured(switches[i]);
        mgr.RowViewed(mgr.rows[switches[i].row]);
      }
    }

    /** What the operating system does with ports; the program does not see it. */
    ghost method Meanwhile(e: StackEvent)
      requires e.Bind? || e.Unbind? || e.StrangerTakes? || e.StrangerLeaves?
      modifies `sockets
      ensures View() == StackStep(config, old(View()), e)
    {
      sockets := StackStep(config, View(), e).sockets;
    }

    /** Any event of the stack: registries, manager and switches do what the switch protocol says. */
    method Perform(e: StackEvent)
      requires Valid() && Honest(View(), e)
      modifies this, mgr, mgr.rows, mgr.children
      ensures Valid() && mgr.Grown() && View() == StackStep(config, old(View()), e)
    {
      AllCaptured();
      CapturedStays(config, View(), e);
      PerformEvent(e);
      Recaptured();
    }

    method PerformEvent(e: StackEvent)
      requires Valid() && Honest(View(), e)
      modifies this, mgr, mgr.rows, mgr.children
      ensures mgr.Valid() && mgr.Grown() && View() == StackStep(config, old(View()), e)
    {
      hide ProcessManager.View, ProcessManager.Valid, Captured, Inv, Supervised, LazilyBooted, RemotelyBooted,
          SwitchCall,
           PortAnswer, Commit, Bindable;
      match e
      case Supervise(x) => Supervise(x);
      case BootLazy(n) => RegisterLazy(n);
      case BootRemote(n, env) => RegisterRemote(n, env);
      case CallSwitch(n, goal) => Call(n, goal);
      case AnswerPort(i, free) => Answer(i, free);
      case CommitSwitch(i) => Take(i);
      case _ => Meanwhile(e);
    }

    method PerformAll(events: seq<StackEvent>)
      requires Valid() && HonestRun(config, View(), events)
      modifies this, mgr, mgr.rows, mgr.children
      ensures Valid() && mgr.Grown() && View() == StackRun(config, old(View()), events)
      decreases |events|
    {
      hide Valid, View, StackStep, Honest;
      if events != [] {
        Perform(events[0]);
        assert forall i :: 0 <= i < |mgr.rows| ==> mgr.rows[i] in old(mgr.rows) || fresh(mgr.rows[i]);
        assert forall i :: 0 <= i < |mgr.children| ==> mgr.children[i] in old(mgr.children) || fresh(mgr.children[i]);
        PerformAll(events[1..]);
      }
    }

    /** Any run from a fresh start in which the callers of a service take turns: at most one claim on its
     *  configured port. */
    method Live(events: seq<StackEvent>, name: Name)
      requires Valid() && AtRest(View()) && HonestRun(config, View(), events)
      requires Configured(config, name) && OrderlyRun(config, View(), events, name)
      modifies this, mgr, mgr.rows, mgr.children
      ensures Valid() && View() == StackRun(config, old(View()), events)
      ensures OneClaim(View(), name, config.services[name].port)
      ensures name in remoteProxies ==> name !in lazyProxies && ServedOnlyRemotely(config, View(), name)
    {
      OneClaimAtATime(config, View(), events, name);
      RestInv(config, View(), name);
      RunInv(config, View(), events, name);
      PerformAll(events);
      if name in remoteProxies { RemoteIsAlone(config, View(), name); }
    }
  }
}
