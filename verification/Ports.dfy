/** Ports: what a configuration must satisfy to pass validation, and which ports a run then holds.
 *
 *  Of `validateConfig` this is the part about names, ports and lazy mode. */
module Ports {
  import opened Options

  const MAX_PORT := 65535
  const LAZY_PORT_OFFSET := 10000

  type Name = string

  /** What a configuration may give as a port: an integer, or anything else. */
  datatype PortValue = Integer(value: int) | NotAnInteger(tag: int)

  datatype Service = Service(name: Name, port: PortValue)

  datatype LazyConfig = LazyConfig(alwaysOn: seq<Name>)

  datatype Config = Config(services: seq<Service>, lazy: Option<LazyConfig>)

  datatype ConfigError =
    | NoServices
    | DuplicateName(name: Name)
    | DuplicatePort(name: Name)
    | BlankName
    | InvalidPort(name: Name)
    | UnknownAlwaysOn(name: Name)
    | LazyPortTooHigh(name: Name)
    | LazyPortCollides(name: Name)

  predicate IsValidPort(p: PortValue) {
    p.Integer? && 1 <= p.value <= MAX_PORT
  }

  /** What `trim` takes off: white space and line ends, ASCII or not. */
  predicate IsSpace(c: char) {
    || c in " \t\n\r\U{0B}\U{0C}\U{A0}\U{1680}\U{2028}\U{2029}\U{202F}\U{205F}\U{3000}\U{FEFF}"
    || '\U{2000}' <= c <= '\U{200A}'
  }

  predicate IsBlank(name: Name) {
    forall i :: 0 <= i < |name| ==> IsSpace(name[i])
  }

  function RealPort(p: PortValue): PortValue {
    if p.Integer? then Integer(p.value + LAZY_PORT_OFFSET) else p
  }

  // ---------------------------------------------------------------- what validation is for

  predicate NamesUnique(services: seq<Service>) {
    forall i, j :: 0 <= i < j < |services| ==> services[i].name != services[j].name
  }

  predicate PortsUnique(services: seq<Service>) {
    forall i, j :: 0 <= i < j < |services| ==> services[i].port != services[j].port
  }

  /** A lazy service has room for its real port, which is nobody's configured port. */
  predicate LazyPortsFree(services: seq<Service>, lazy: LazyConfig) {
    forall i :: 0 <= i < |services| && services[i].name !in lazy.alwaysOn ==>
      && (IsValidPort(services[i].port) ==> IsValidPort(RealPort(services[i].port)))
      && forall j :: 0 <= j < |services| ==> services[j].port != RealPort(services[i].port)
  }

  predicate Sound(config: Config) {
    && config.services != []
    && NamesUnique(config.services) && PortsUnique(config.services)
    && (forall s :: s in config.services ==> !IsBlank(s.name) && IsValidPort(s.port))
    && (config.lazy.Some? ==>
          && (forall n :: n in config.lazy.value.alwaysOn ==> exists s :: s in config.services && s.name == n)
          && LazyPortsFree(config.services, config.lazy.value))
  }

  // ---------------------------------------------------------------- validation as it is written

  /** Unique names. */
  method CheckNames(services: seq<Service>) returns (errors: seq<ConfigError>, names: set<Name>)
    ensures names == set s | s in services :: s.name
    ensures errors == [] <==> NamesUnique(services)
  {
    errors, names := [], {};
    for i := 0 to |services|
      invariant names == set s | s in services[..i] :: s.name
      invariant errors == [] <==> NamesUnique(services[..i])
    {
      var svc := services[i];
      assert services[..i + 1] == services[..i] + [svc];
      NamesOneMore(services[..i], svc);
      if svc.name in names { errors := errors + [DuplicateName(svc.name)]; }
      names := names + {svc.name};
    }
    assert services[..|services|] == services;
  }

  lemma NamesOneMore(services: seq<Service>, svc: Service)
    ensures NamesUnique(services + [svc]) <==> NamesUnique(services) && svc.name !in (set s | s in services :: s.name)
  {
    var all := services + [svc];
    if NamesUnique(all) {
      forall i, j | 0 <= i < j < |services| ensures services[i].name != services[j].name {
        assert all[i].name != all[j].name;
      }
      forall s | s in services ensures s.name != svc.name {
        var i :| 0 <= i < |services| && services[i] == s;
        assert all[i].name != all[|services|].name;
      }
    }
    if NamesUnique(services) && svc.name !in (set s | s in services :: s.name) {
      forall i, j | 0 <= i < j < |all| ensures all[i].name != all[j].name {
        assert services[i] in services;
      }
    }
  }

  predicate AllNamed(services: seq<Service>) {
    forall s :: s in services ==> s.name != []
  }

  /** Who was last seen with the port. */
  ghost predicate PortTable(services: seq<Service>, ports: map<PortValue, Name>) {
    && (forall s :: s in services ==> s.port in ports)
    && (forall p :: p in ports ==> exists s :: s in services && s.port == p && s.name == ports[p])
  }

  /** Unique ports; the name found is tested for being there and not empty. */
  method CheckPorts(services: seq<Service>) returns (errors: seq<ConfigError>)
    ensures PortsUnique(services) ==> errors == []
    ensures errors == [] && AllNamed(services) ==> PortsUnique(services)
  {
    errors := [];
    var ports: map<PortValue, Name> := map[];
    for i := 0 to |services|
      invariant PortTable(services[..i], ports)
      invariant PortsUnique(services[..i]) ==> errors == []
      invariant errors == [] && AllNamed(services) ==> PortsUnique(services[..i])
    {
      var svc := services[i];
      assert svc in services && services[..i + 1] == services[..i] + [svc];
      PortsOneMore(services[..i], svc);
      assert forall s :: s in services[..i] ==> s in services;
      if svc.port in ports && ports[svc.port] != [] { errors := errors + [DuplicatePort(svc.name)]; }
      ports := ports[svc.port := svc.name];
    }
    assert services[..|services|] == services;
  }

  lemma PortsOneMore(services: seq<Service>, svc: Service)
    ensures PortsUnique(services + [svc]) <==> PortsUnique(services) && forall s :: s in services ==> s.port != svc.port
  {
    var all := services + [svc];
    if PortsUnique(all) {
      forall i, j | 0 <= i < j < |services| ensures services[i].port != services[j].port {
        assert all[i].port != all[j].port;
      }
      forall s | s in services ensures s.port != svc.port {
        var i :| 0 <= i < |services| && services[i] == s;
        assert all[i].port != all[|services|].port;
      }
    }
    if PortsUnique(services) && forall s :: s in services ==> s.port != svc.port {
      forall i, j | 0 <= i < j < |all| ensures all[i].port != all[j].port {
        assert services[i] in services;
      }
    }
  }

  method CheckFields(services: seq<Service>) returns (errors: seq<ConfigError>)
    ensures errors == [] <==> forall s :: s in services ==> !IsBlank(s.name) && IsValidPort(s.port)
  {
    errors := [];
    for i := 0 to |services|
      invariant errors == [] <==> forall s :: s in services[..i] ==> !IsBlank(s.name) && IsValidPort(s.port)
    {
      var svc := services[i];
      assert services[..i + 1] == services[..i] + [svc];
      if IsBlank(svc.name) { errors := errors + [BlankName]; }
      if !IsValidPort(svc.port) { errors := errors + [InvalidPort(svc.name)]; }
    }
    assert services[..|services|] == services;
  }

  method CheckAlwaysOn(alwaysOn: seq<Name>, names: set<Name>) returns (errors: seq<ConfigError>)
    ensures errors == [] <==> forall n :: n in alwaysOn ==> n in names
  {
    errors := [];
    for i := 0 to |alwaysOn|
      invariant errors == [] <==> forall n :: n in alwaysOn[..i] ==> n in names
    {
      assert alwaysOn[..i + 1] == alwaysOn[..i] + [alwaysOn[i]];
      if alwaysOn[i] !in names { errors := errors + [UnknownAlwaysOn(alwaysOn[i])]; }
    }
    assert alwaysOn[..|alwaysOn|] == alwaysOn;
  }

  /** One lazy service has room for its real port, and finds no configured port there. */
  predicate RoomFor(services: seq<Service>, svc: Service) {
    && (IsValidPort(svc.port) ==> IsValidPort(RealPort(svc.port)))
    && forall s :: s in services ==> s.port != RealPort(svc.port)
  }

  /** What the other checks have established. */
  predicate Proper(services: seq<Service>) {
    NamesUnique(services) && AllNamed(services) && forall s :: s in services ==> IsValidPort(s.port)
  }

  method TableOf(services: seq<Service>) returns (ports: map<PortValue, Name>)
    ensures PortTable(services, ports)
  {
    ports := map[];
    for i := 0 to |services|
      invariant PortTable(services[..i], ports)
    {
      assert services[..i + 1] == services[..i] + [services[i]];
      ports := ports[services[i].port := services[i].name];
    }
    assert services[..|services|] == services;
  }

  /** Lazy port collisions. */
  method CheckLazyPorts(services: seq<Service>, alwaysOn: seq<Name>) returns (errors: seq<ConfigError>)
    ensures Proper(services) ==>
              (errors == [] <==> forall s :: s in services && s.name !in alwaysOn ==> RoomFor(services, s))
  {
    errors := [];
    var portToSvc := TableOf(services);
    for i := 0 to |services|
      invariant Proper(services) ==>
                  (errors == [] <==> forall s :: s in services[..i] && s.name !in alwaysOn ==> RoomFor(services, s))
    {
      var svc := services[i];
      assert svc in services && services[..i + 1] == services[..i] + [svc];
      if svc.name in alwaysOn { continue; }
      var realPort := RealPort(svc.port);
      if IsValidPort(svc.port) && realPort.Integer? && realPort.value > MAX_PORT {
        errors := errors + [LazyPortTooHigh(svc.name)];
        continue;
      }
      if realPort in portToSvc && portToSvc[realPort] != [] && portToSvc[realPort] != svc.name {
        errors := errors + [LazyPortCollides(svc.name)];
      } else if Proper(services) {
        OwnNameIsNoConflict(services, portToSvc, svc);
      }
    }
    assert services[..|services|] == services;
  }

  /** The check for the service's own name lets nothing through: a port differs from its real port. */
  lemma OwnNameIsNoConflict(services: seq<Service>, ports: map<PortValue, Name>, svc: Service)
    requires Proper(services) && PortTable(services, ports) && svc in services
    requires RealPort(svc.port) in ports ==> ports[RealPort(svc.port)] == [] || ports[RealPort(svc.port)] == svc.name
    ensures RealPort(svc.port) !in ports
  {
    forall s | s in services && s.name == svc.name ensures s == svc { SameName(services, s, svc); }
  }

  lemma SameName(services: seq<Service>, a: Service, b: Service)
    requires NamesUnique(services) && a in services && b in services && a.name == b.name
    ensures a == b
  {
    var i :| 0 <= i < |services| && services[i] == a;
    var j :| 0 <= j < |services| && services[j] == b;
  }

  /** validateConfig, as far as names and ports go.  A name that is empty and a port that is no port
   *  have errors of their own, so the gaps of the other checks let nothing through. */
  method Validate(config: Config) returns (errors: seq<ConfigError>)
    ensures errors == [] <==> Sound(config)
  {
    if config.services == [] { return [NoServices]; }
    var duplicates, names := CheckNames(config.services);
    var ports := CheckPorts(config.services);
    var fields := CheckFields(config.services);
    errors := duplicates + ports + fields;
    if config.lazy.Some? {
      var unknown := CheckAlwaysOn(config.lazy.value.alwaysOn, names);
      var lazyPorts := CheckLazyPorts(config.services, config.lazy.value.alwaysOn);
      LazyPortsSpelledOut(config.services, config.lazy.value);
      errors := errors + unknown + lazyPorts;
    }
    assert (forall s :: s in config.services ==> !IsBlank(s.name) && IsValidPort(s.port)) ==> AllNamed(config.services);
  }

  lemma LazyPortsSpelledOut(services: seq<Service>, lazy: LazyConfig)
    ensures LazyPortsFree(services, lazy) <==>
              forall s :: s in services && s.name !in lazy.alwaysOn ==> RoomFor(services, s)
  {
    if LazyPortsFree(services, lazy) {
      forall s | s in services && s.name !in lazy.alwaysOn ensures RoomFor(services, s) {
        var i :| 0 <= i < |services| && services[i] == s;
        forall x | x in services ensures x.port != RealPort(s.port) {
          var j :| 0 <= j < |services| && services[j] == x;
        }
      }
    }
    if forall s :: s in services && s.name !in lazy.alwaysOn ==> RoomFor(services, s) {
      forall i | 0 <= i < |services| && services[i].name !in lazy.alwaysOn
        ensures (IsValidPort(services[i].port) ==> IsValidPort(RealPort(services[i].port)))
             && forall j :: 0 <= j < |services| ==> services[j].port != RealPort(services[i].port)
      {
        assert services[i] in services && RoomFor(services, services[i]);
        forall j | 0 <= j < |services| ensures services[j].port != RealPort(services[i].port) {
          assert services[j] in services;
        }
      }
    }
  }

  // ---------------------------------------------------------------- what a run holds

  function Without(services: seq<Service>, names: set<Name>): seq<Service> {
    if services == [] then []
    else
      var rest, last := Without(services[..|services| - 1], names), services[|services| - 1];
      if last.name in names then rest else rest + [last]
  }

  function Only(services: seq<Service>, names: set<Name>): seq<Service> {
    if services == [] then []
    else
      var rest, last := Only(services[..|services| - 1], names), services[|services| - 1];
      if last.name in names then rest + [last] else rest
  }

  function NamesOf(services: seq<Service>): set<Name> {
    set s | s in services :: s.name
  }

  datatype LazySplit = LazySplit(alwaysOn: seq<Service>, lazy: seq<Service>)

  /** classifyServices. */
  method ClassifyServices(services: seq<Service>, lazy: Option<LazyConfig>) returns (c: LazySplit)
    ensures var alwaysOn := if lazy.Some? then lazy.value.alwaysOn else [];
            c == LazySplit(Only(services, set n | n in alwaysOn), Without(services, set n | n in alwaysOn))
  {
    var listed := if lazy.Some? then lazy.value.alwaysOn else [];
    var alwaysOnSet: set<Name> := set n | n in listed;
    var alwaysOn: seq<Service>, rest: seq<Service> := [], [];
    for i := 0 to |services|
      invariant alwaysOn == Only(services[..i], alwaysOnSet) && rest == Without(services[..i], alwaysOnSet)
    {
      assert services[..i + 1][..i] == services[..i];
      if services[i].name in alwaysOnSet {
        alwaysOn := alwaysOn + [services[i]];
      } else {
        rest := rest + [services[i]];
      }
    }
    assert services[..|services|] == services;
    return LazySplit(alwaysOn, rest);
  }

  /** What `--remote` asks for: the services named, or everything that was not selected locally. */
  datatype RemoteSelection = RemoteSelection(only: Option<seq<Name>>)

  datatype RemoteSplit = RemoteSplit(local: seq<Service>, remote: seq<Service>, unresolved: seq<Name>)

  /** The services that a selection wants served from the environment. */
  function Wanted(all: seq<Service>, local: seq<Service>, selection: RemoteSelection): seq<Service> {
    if selection.only.Some? then Only(all, set n | n in selection.only.value) else Without(all, NamesOf(local))
  }

  /** classifyRemote; `targets` are the services that the environment has a target for. */
  method ClassifyRemote(all: seq<Service>, local: seq<Service>, selection: Option<RemoteSelection>, targets: set<Name>)
    returns (c: RemoteSplit)
    ensures c == Split(all, local, selection, targets)
  {
    if selection.None? { return RemoteSplit(local, [], []); }
    var wanted := Wanted(all, local, selection.value);
    var remote: seq<Service>, unresolved: seq<Name> := [], [];
    for i := 0 to |wanted|
      invariant remote == Only(wanted[..i], targets) && unresolved == Unresolved(wanted[..i], targets)
    {
      assert wanted[..i + 1][..i] == wanted[..i];
      if wanted[i].name in targets {
        remote := remote + [wanted[i]];
      } else {
        unresolved := unresolved + [wanted[i].name];
      }
    }
    assert wanted[..|wanted|] == wanted;
    return RemoteSplit(Without(local, NamesOf(remote)), remote, unresolved);
  }

  function Unresolved(wanted: seq<Service>, targets: set<Name>): seq<Name> {
    if wanted == [] then []
    else
      var rest, last := Unresolved(wanted[..|wanted| - 1], targets), wanted[|wanted| - 1].name;
      if last in targets then rest else rest + [last]
  }

  function Split(all: seq<Service>, local: seq<Service>, selection: Option<RemoteSelection>,
                 targets: set<Name>): RemoteSplit {
    if selection.None? then RemoteSplit(local, [], [])
    else
      var wanted := Wanted(all, local, selection.value);
      var remote := Only(wanted, targets);
      RemoteSplit(Without(local, NamesOf(remote)), remote, Unresolved(wanted, targets))
  }

  /** allHeldPorts: the services whose configured ports the pre-boot scan looks at. */
  function AllHeldPorts(local: seq<Service>, classification: Option<RemoteSplit>): seq<Service> {
    if classification.None? then local else classification.value.local + classification.value.remote
  }

  function PortsOf(services: seq<Service>): seq<PortValue> {
    seq(|services|, i requires 0 <= i < |services| => services[i].port)
  }

  function RealPortsOf(services: seq<Service>): seq<PortValue> {
    seq(|services|, i requires 0 <= i < |services| => RealPort(services[i].port))
  }

  /** Every port a run holds: always-on services, lazy proxies, the lazy services behind them, and
   *  remote proxies. */
  function HeldPorts(split: RemoteSplit, lazy: Option<LazyConfig>): seq<PortValue> {
    if lazy.None? then PortsOf(split.local) + PortsOf(split.remote)
    else
      var names := set n | n in lazy.value.alwaysOn;
      var asleep := Without(split.local, names);
      PortsOf(Only(split.local, names)) + PortsOf(asleep) + RealPortsOf(asleep) + PortsOf(split.remote)
  }

  predicate AllDistinct(ports: seq<PortValue>) {
    forall i, j :: 0 <= i < j < |ports| ==> ports[i] != ports[j]
  }

  /** A part of the configured services, no name twice. */
  ghost predicate PartOf(services: seq<Service>, part: seq<Service>) {
    NamesUnique(part) && forall s :: s in part ==> s in services
  }

  lemma {:induction false} FiltersArePart(services: seq<Service>, part: seq<Service>, names: set<Name>)
    requires PartOf(services, part)
    ensures PartOf(services, Only(part, names)) && PartOf(services, Without(part, names))
    ensures forall s :: s in Only(part, names) <==> s in part && s.name in names
    ensures forall s :: s in Without(part, names) <==> s in part && s.name !in names
  {
    if part != [] {
      var init, last := part[..|part| - 1], part[|part| - 1];
      assert part == init + [last];
      assert NamesUnique(init) by {
        forall i, j | 0 <= i < j < |init| ensures init[i].name != init[j].name { assert part[i].name != part[j].name; }
      }
      FiltersArePart(services, init, names);
      NamesOneMore(init, last);
      NamesOneMore(Only(init, names), last);
      NamesOneMore(Without(init, names), last);
    }
  }

  /** Two services of a sound configuration with one port are one service. */
  lemma PortTells(services: seq<Service>, a: Service, b: Service)
    requires PortsUnique(services) && a in services && b in services && a.port == b.port
    ensures a == b
  {
    var i :| 0 <= i < |services| && services[i] == a;
    var j :| 0 <= j < |services| && services[j] == b;
  }

  lemma PartPortsDistinct(services: seq<Service>, part: seq<Service>)
    requires PortsUnique(services) && PartOf(services, part)
    ensures AllDistinct(PortsOf(part)) && AllDistinct(RealPortsOf(part))
  {
    forall i, j | 0 <= i < j < |part|
      ensures part[i].port != part[j].port && RealPort(part[i].port) != RealPort(part[j].port)
    {
      assert part[i] in services && part[j] in services;
      if part[i].port == part[j].port || RealPort(part[i].port) == RealPort(part[j].port) {
        PortTells(services, part[i], part[j]);
      }
    }
  }

  ghost predicate Apart(a: seq<PortValue>, b: seq<PortValue>) {
    forall i, j :: 0 <= i < |a| && 0 <= j < |b| ==> a[i] != b[j]
  }

  lemma DistinctSum(a: seq<PortValue>, b: seq<PortValue>)
    requires AllDistinct(a) && AllDistinct(b) && Apart(a, b)
    ensures AllDistinct(a + b)
  {}

  lemma PartsApart(services: seq<Service>, a: seq<Service>, b: seq<Service>)
    requires PortsUnique(services) && PartOf(services, a) && PartOf(services, b)
    requires forall s :: s in a ==> s !in b
    ensures Apart(PortsOf(a), PortsOf(b))
  {
    forall i, j | 0 <= i < |a| && 0 <= j < |b|
      ensures a[i].port != b[j].port
    {
      assert a[i] in a && b[j] in b;
      if a[i].port == b[j].port { PortTells(services, a[i], b[j]); }
    }
  }

  lemma RealApart(config: Config, a: seq<Service>, lazy: seq<Service>)
    requires Sound(config) && config.lazy.Some? && PartOf(config.services, a) && PartOf(config.services, lazy)
    requires forall s :: s in lazy ==> s.name !in config.lazy.value.alwaysOn
    ensures Apart(PortsOf(a), RealPortsOf(lazy))
    ensures forall p :: p in RealPortsOf(lazy) ==> IsValidPort(p)
  {
    LazyPortsSpelledOut(config.services, config.lazy.value);
    forall j | 0 <= j < |lazy|
      ensures RoomFor(config.services, lazy[j]) && IsValidPort(lazy[j].port)
    {
      assert lazy[j] in lazy;
    }
    forall i, j | 0 <= i < |a| && 0 <= j < |lazy| ensures a[i].port != RealPort(lazy[j].port) {
      assert a[i] in a && RoomFor(config.services, lazy[j]);
    }
  }

  lemma PartPortsValid(config: Config, part: seq<Service>)
    requires Sound(config) && PartOf(config.services, part)
    ensures forall p :: p in PortsOf(part) ==> IsValidPort(p)
  {
    forall i | 0 <= i < |part| ensures IsValidPort(part[i].port) { assert part[i] in part; }
  }

  /** The remote services are configured ones, and none of them is also local. */
  lemma SplitIsApart(config: Config, local: seq<Service>, selection: Option<RemoteSelection>, targets: set<Name>)
    requires Sound(config) && PartOf(config.services, local)
    ensures var c := Split(config.services, local, selection, targets);
            PartOf(config.services, c.local) && PartOf(config.services, c.remote)
            && forall s :: s in c.local ==> s !in c.remote
  {
    if selection.Some? {
      var all := config.services;
      assert PartOf(all, all);
      if selection.value.only.Some? { FiltersArePart(all, all, set n | n in selection.value.only.value); }
      FiltersArePart(all, all, NamesOf(local));
      var wanted := Wanted(all, local, selection.value);
      FiltersArePart(all, wanted, targets);
      FiltersArePart(all, local, NamesOf(Only(wanted, targets)));
    }
  }

  /** If validation finds nothing wrong then, whatever is selected and whatever is served remotely, all
   *  ports the run holds are valid ports and no two of them are the same. */
  lemma CleanConfigHoldsDistinctPorts(config: Config, local: seq<Service>, selection: Option<RemoteSelection>,
                                      targets: set<Name>, lazyMode: bool)
    requires Sound(config) && PartOf(config.services, local)
    ensures var c := Split(config.services, local, selection, targets);
            var held := HeldPorts(c, if lazyMode then config.lazy else None);
            AllDistinct(held) && forall p :: p in held ==> p.Integer? && 1 <= p.value <= 65535
  {
    var all := config.services;
    var c := Split(all, local, selection, targets);
    SplitIsApart(config, local, selection, targets);
    PartPortsDistinct(all, c.remote);
    PartPortsValid(config, c.remote);
    hide Split;
    if lazyMode && config.lazy.Some? {
      var names := set n | n in config.lazy.value.alwaysOn;
      var awake, asleep := Only(c.local, names), Without(c.local, names);
      FiltersArePart(all, c.local, names);
      LazyModeDistinct(config, awake, asleep, c.remote);
    } else {
      PartPortsDistinct(all, c.local);
      PartPortsValid(config, c.local);
      PartsApart(all, c.local, c.remote);
      DistinctSum(PortsOf(c.local), PortsOf(c.remote));
    }
  }

  lemma LazyModeDistinct(config: Config, awake: seq<Service>, asleep: seq<Service>, remote: seq<Service>)
    requires Sound(config) && config.lazy.Some?
    requires PartOf(config.services, awake) && PartOf(config.services, asleep) && PartOf(config.services, remote)
    requires forall s :: s in asleep ==> s.name !in config.lazy.value.alwaysOn && s !in remote
    requires forall s :: s in awake ==> s !in asleep && s !in remote
    ensures var held := PortsOf(awake) + PortsOf(asleep) + RealPortsOf(asleep) + PortsOf(remote);
            AllDistinct(held) && forall p :: p in held ==> IsValidPort(p)
  {
    var all := config.services;
    PartPortsDistinct(all, awake);
    PartPortsDistinct(all, asleep);
    PartPortsDistinct(all, remote);
    PartPortsValid(config, awake);
    PartPortsValid(config, asleep);
    PartPortsValid(config, remote);
    PartsApart(all, awake, asleep);
    PartsApart(all, awake, remote);
    PartsApart(all, asleep, remote);
    RealApart(config, awake, asleep);
    RealApart(config, asleep, asleep);
    RealApart(config, remote, asleep);
    hide PortsOf, RealPortsOf, Sound, PartOf;
    DistinctSum(PortsOf(awake), PortsOf(asleep));
    DistinctSum(PortsOf(awake) + PortsOf(asleep), RealPortsOf(asleep));
    DistinctSum(PortsOf(awake) + PortsOf(asleep) + RealPortsOf(asleep), PortsOf(remote));
  }

  /** The pre-boot scan looks at every configured port that the run holds, and at each once. */
  lemma ScanListsEachHeldPortOnce(config: Config, local: seq<Service>, selection: Option<RemoteSelection>,
                                  targets: set<Name>)
    requires Sound(config) && PartOf(config.services, local)
    ensures var c := Split(config.services, local, selection, targets);
            var listed := AllHeldPorts(local, if selection.None? then None else Some(c));
            && AllDistinct(PortsOf(listed))
            && forall s :: s in listed <==> s in c.local || s in c.remote
  {
    CleanConfigHoldsDistinctPorts(config, local, selection, targets, false);
    var c := Split(config.services, local, selection, targets);
    assert PortsOf(c.local + c.remote) == PortsOf(c.local) + PortsOf(c.remote);
    if selection.None? { assert c.local + c.remote == local; }
  }
}
