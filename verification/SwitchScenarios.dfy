/** A run from rest in which a service is switched to an environment and back. */
module SwitchScenarios {
  import opened Options
  import opened Supervision
  import opened SupervisionSafety
  import opened RestartAdvertising
  import opened StartOutcomes
  import opened Switching
  import opened SwitchSafety
  import opened SwitchOutcomes
  import opened Scenarios

  lemma StartedCanSwitch(config: SwitchConfig, k0: Stack, svc: ServiceConfig, env: string)
    requires AtRest(k0) && !svc.isApi && !svc.hasPreBuild && svc.port !in k0.sockets.foreign
    requires svc.name in config.services && config.services[svc.name] == svc
    requires env in config.targets && svc.name in config.targets[env]
    ensures var k := StackStep(config, k0, Supervise(StartCall(svc, false, FINE)));
            && CanSwitch(config, k, svc.name, ToRemote(env)) && k.switches == []
            && Entry(k.sup, svc.name).remote.None? && !k.sup.closing && Alive(k.sup, 0)
  {
    var e := StartCall(svc, false, FINE);
    var k := StackStep(config, k0, Supervise(e));
    WebIsStarted(k0.sup, svc);
    assert k.sup == Step(k0.sup, e) && k.switches == [] && k.proxies == k0.proxies && k.sockets.bound == {};
    hide Step;
    StepIs(k0.sup, e);
    WebStart(k0.sup, svc, false, false);
    assert k.sup.requests == [];
    hide Start, StackStep;
    CallLeaves(config, k, svc, env);
  }

  /** A web is started from rest, switched to an environment and back: it runs, is served from the environment
   *  and from nowhere else, and runs again. */
  lemma StartedThereAndBack(config: SwitchConfig, k0: Stack, svc: ServiceConfig, env: string)
    requires AtRest(k0) && !svc.isApi && !svc.hasPreBuild && svc.port !in k0.sockets.foreign
    requires svc.name in config.services && config.services[svc.name] == svc
    requires env in config.targets && svc.name in config.targets[env]
    ensures var n := svc.name;
            var k := StackRun(config, k0, [Supervise(StartCall(svc, false, FINE))]);
            var k1 := StackRun(config, k, SwitchOver(n, ToRemote(env), 0));
            var k2 := StackRun(config, k1, SwitchOver(n, ToLocal, |k1.switches|));
            var q, t := |k1.sup.requests|, |k1.sup.starts.tasks|;
            var s := Step(k2.sup, InstallDone(q, FINE));
            && OrderlyRun(config, k0, [Supervise(StartCall(svc, false, FINE))], n) && Alive(k.sup, 0)
            && Registered(k1.sup, n) && ReadsAway(k1.sup, Entry(k1.sup, n), svc, env)
            && ServedOnlyRemotely(config, k1, n)
            && AskedForAtHome(config, k2, n, q)
            && t < |s.starts.tasks| && ServiceUp(k2.sup, Run(s, CarryOn(s, t, ALL_WELL)), svc)
  {
    var e := Supervise(StartCall(svc, false, FINE));
    assert StackRun(config, k0, [e]) == StackStep(config, k0, e) by { assert [e][1..] == []; }
    assert OrderlyRun(config, k0, [e], svc.name) by { assert [e][1..] == []; hide StackStep; }
    StartedCanSwitch(config, k0, svc, env);
    assert Configured(config, svc.name);
    hide StackStep, StackRun, OrderlyRun, CanSwitch, ServedOnlyRemotely, Step, Run, CarryOn, ServiceUp, AskedForAtHome,
         AtRest, SwitchOver;
    ThereAndBack(config, k0, [e], svc.name, env);
  }
}
