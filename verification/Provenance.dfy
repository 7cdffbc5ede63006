/** Where everything comes from that can bring a service up.
 *
 *  After one step, whatever lives, is in flight, is queued or is asked for under a name was there
 *  before, or is of a configuration that the event itself hands to the spawner, the restarter or the
 *  registry. */
module Provenance {
  import opened Options
  import opened Supervision
  import opened SupervisionInvariants
  import opened RestartAdvertising

  /** What an event may bring in under a name: configurations that are started or registered, queued
   *  for a restart, or asked for; whether the name may leave the registry; and whether it may go to an
   *  environment. */
  datatype Source = Source(
    started: set<ServiceConfig>,
    queued: set<ServiceConfig>,
    asked: set<ServiceConfig>,
    dropped: bool,
    away: bool)

  const NOTHING: Source := Source({}, {}, {}, false, false)

  function Started(svc: ServiceConfig): Source {
    NOTHING.(started := {svc})
  }

  /** The name is served from an environment. */
  predicate Elsewhere(s: Supervisor, n: Name) {
    Registered(s, n) && Entry(s, n).remote.Some?
  }

  predicate InFlightOf(s: Supervisor, t: int, n: Name) {
    0 <= t < |s.starts.tasks| && !s.starts.tasks[t].phase.Settled? && s.starts.tasks[t].svc.name == n
  }

  function Sources(s: Supervisor, e: Event, n: Name): Source {
    match e
    case StartCall(svc, _, _) => if svc.name == n && !Elsewhere(s, n) then Started(svc) else NOTHING
    case PortResult(t, _, _) => if InFlightOf(s, t, n) then Started(s.starts.tasks[t].svc) else NOTHING
    case BuildResult(t, _, _) => if InFlightOf(s, t, n) then Started(s.starts.tasks[t].svc) else NOTHING
    case RestartTimerFires(k, _) =>
      if TimerFor(s, n, k) && !Elsewhere(s, n) then Started(s.queue.timers[k].svc) else NOTHING
    case InstallDone(q, _) => HandedOver(s, q, n)
    case RestartResume(q, _) => HandedOver(s, q, n)
    case Close(p, _) => if Loose(s, p, n) then NOTHING.(queued := {s.children[p].svc}) else NOTHING
    case StartServiceCall(m) =>
      if m == n && Registered(s, n) && !Elsewhere(s, n) then NOTHING.(asked := {Entry(s, n).svc}) else NOTHING
    case RestartServiceCall(m) =>
      if m == n && Registered(s, n) then NOTHING.(asked := {Entry(s, n).svc}) else NOTHING
    case RegisterLazyCall(svc) => if svc.name == n then Started(svc) else NOTHING
    case RegisterRemoteCall(svc, _) => if svc.name == n then Started(svc).(away := true) else NOTHING
    case RemoteCommit(_, svc, _) => if svc.name == n then Started(svc).(away := true) else NOTHING
    case LocalCommit(_, svc) => if svc.name == n then Started(svc) else NOTHING
    case RemoveCall(m) => NOTHING.(dropped := m == n)
    case _ => NOTHING
  }

  function HandedOver(s: Supervisor, q: nat, n: Name): Source {
    if Open(s, q, n) && s.requests[q].row < |s.rows| && !Elsewhere(s, n) then Started(s.rows[s.requests[q].row].svc)
    else NOTHING
  }

  // ---------------------------------------------------------------- from one state to a later one

  /** A process that may still crash. */
  predicate ProcessFrom(a: Supervisor, b: Supervisor, n: Name, src: Source, p: int) {
    Loose(b, p, n) ==> Loose(a, p, n) || b.children[p].svc in src.started
  }

  predicate SpawnFrom(a: Supervisor, b: Supervisor, n: Name, src: Source, p: int) {
    0 <= p < |b.children| && b.children[p].svc.name == n ==> p < |a.children| || b.children[p].svc in src.started
  }

  predicate TaskFrom(a: Supervisor, b: Supervisor, n: Name, src: Source, t: int) {
    InFlightOf(b, t, n) ==>
      (InFlightOf(a, t, n) && b.starts.tasks[t].svc == a.starts.tasks[t].svc) || b.starts.tasks[t].svc in src.started
  }

  predicate TimerFrom(a: Supervisor, b: Supervisor, n: Name, src: Source, k: int) {
    TimerFor(b, n, k) ==>
      (TimerFor(a, n, k) && b.queue.timers[k].svc == a.queue.timers[k].svc) || b.queue.timers[k].svc in src.queued
  }

  predicate RequestFrom(a: Supervisor, b: Supervisor, n: Name, src: Source, q: int) {
    Open(b, q, n) ==>
      || (Open(a, q, n) && b.requests[q].row == a.requests[q].row)
      || (b.requests[q].row < |b.rows| && b.rows[b.requests[q].row].svc.name == n
          && b.rows[b.requests[q].row].svc in src.asked + src.started)
  }

  /** A state object of the name keeps its configuration and its environment, or gets a new one. */
  predicate RowFrom(a: Supervisor, b: Supervisor, n: Name, src: Source, r: int) {
    0 <= r < |a.rows| && a.rows[r].svc.name == n ==>
      && r < |b.rows| && b.rows[r].svc.name == n
      && ((b.rows[r].svc == a.rows[r].svc && b.rows[r].remote == a.rows[r].remote) || b.rows[r].svc in src.started)
  }

  predicate EntryFrom(a: Supervisor, b: Supervisor, n: Name, src: Source) {
    && (Registered(a, n) && !src.dropped ==> Registered(b, n))
    && (Registered(b, n) ==> (Registered(a, n) && b.state[n] == a.state[n]) || Entry(b, n).svc in src.started)
    && (Elsewhere(b, n) ==> Elsewhere(a, n) || src.away)
    && |a.rows| <= |b.rows|
    && (n in b.state ==> (n in a.state && b.state[n] == a.state[n]) || b.state[n] >= |a.rows|)
  }

  predicate SameChild(a: Supervisor, b: Supervisor, p: int) {
    0 <= p < |a.children| ==>
      && p < |b.children| && b.children[p].svc == a.children[p].svc && b.children[p].row == a.children[p].row
  }

  ghost predicate From(a: Supervisor, b: Supervisor, n: Name, src: Source) {
    && EntryFrom(a, b, n, src)
    && (forall p :: ProcessFrom(a, b, n, src, p) && SpawnFrom(a, b, n, src, p) && SameChild(a, b, p))
    && (forall t :: TaskFrom(a, b, n, src, t))
    && (forall k :: TimerFrom(a, b, n, src, k))
    && (forall q :: RequestFrom(a, b, n, src, q))
    && (forall r :: RowFrom(a, b, n, src, r))
  }

  lemma FromSelf(s: Supervisor, n: Name, src: Source)
    ensures From(s, s, n, src)
  {}

  lemma FromTransitive(a: Supervisor, b: Supervisor, c: Supervisor, n: Name, src: Source)
    requires From(a, b, n, src) && From(b, c, n, src) && (Registered(b, n) ==> Entry(b, n).svc.name == n)
    ensures From(a, c, n, src)
  {
    forall p ensures ProcessFrom(a, c, n, src, p) && SpawnFrom(a, c, n, src, p) && SameChild(a, c, p) {
      assert ProcessFrom(a, b, n, src, p) && SpawnFrom(a, b, n, src, p) && SameChild(a, b, p);
      assert ProcessFrom(b, c, n, src, p) && SpawnFrom(b, c, n, src, p) && SameChild(b, c, p);
    }
    forall t ensures TaskFrom(a, c, n, src, t) { assert TaskFrom(a, b, n, src, t) && TaskFrom(b, c, n, src, t); }
    forall k ensures TimerFrom(a, c, n, src, k) { assert TimerFrom(a, b, n, src, k) && TimerFrom(b, c, n, src, k); }
    forall r ensures RowFrom(a, c, n, src, r) { assert RowFrom(a, b, n, src, r) && RowFrom(b, c, n, src, r); }
    forall q ensures RequestFrom(a, c, n, src, q) {
      assert RequestFrom(a, b, n, src, q) && RequestFrom(b, c, n, src, q);
      if 0 <= q < |b.requests| { assert RowFrom(b, c, n, src, b.requests[q].row); }
    }
    if Registered(b, n) { assert RowFrom(b, c, n, src, b.state[n]); }
  }

  // ---------------------------------------------------------------- writes

  /** State objects were written, none of them changed hands, and nothing was added. */
  lemma WritesFrom(s: Supervisor, s': Supervisor, n: Name, src: Source)
    requires s'.state == s.state && |s'.rows| == |s.rows| && |s'.children| == |s.children|
    requires forall r :: 0 <= r < |s.rows| ==>
               && s'.rows[r].svc == s.rows[r].svc && s'.rows[r].remote == s.rows[r].remote
               && (s.rows[r].intentionalStop ==> s'.rows[r].intentionalStop)
    requires forall p :: 0 <= p < |s.children| ==>
               && s'.children[p].svc == s.children[p].svc && s'.children[p].row == s.children[p].row
               && s'.children[p].spawned == s.children[p].spawned && (s.children[p].exited ==> s'.children[p].exited)
    requires |s'.starts.tasks| == |s.starts.tasks|
    requires forall t :: 0 <= t < |s.starts.tasks| ==>
               && s'.starts.tasks[t].svc == s.starts.tasks[t].svc
               && (s.starts.tasks[t].phase.Settled? ==> s'.starts.tasks[t].phase.Settled?)
    requires forall k :: k in s'.queue.timers ==> k in s.queue.timers && s'.queue.timers[k].svc == s.queue.timers[k].svc
    requires |s'.requests| == |s.requests|
    requires forall q :: 0 <= q < |s.requests| ==>
               && s'.requests[q].name == s.requests[q].name && s'.requests[q].row == s.requests[q].row
               && (s.requests[q].phase.Handed? ==> s'.requests[q].phase.Handed?)
    ensures From(s, s', n, src)
  {}

  lemma StopFrom(s: Supervisor, m: Name, kill: bool, n: Name, src: Source)
    ensures From(s, CancelRestart(s, m), n, src) && From(s, SignalService(s, m, kill), n, src)
  {
    WritesFrom(s, CancelRestart(s, m), n, src);
    WritesFrom(s, SignalService(s, m, kill), n, src);
  }

  lemma StopServiceFrom(s: Supervisor, m: Name, n: Name, src: Source)
    ensures From(s, StopService(s, m), n, src)
  {
    WritesFrom(s, StopService(s, m), n, src);
  }

  lemma OutputFrom(s: Supervisor, p: ChildId, matches: bool, r: RowId, n: Name, src: Source)
    ensures From(s, OnLine(s, p, matches), n, src) && From(s, OnStartupTimer(s, r), n, src)
  {
    WritesFrom(s, OnLine(s, p, matches), n, src);
    WritesFrom(s, OnStartupTimer(s, r), n, src);
  }

  lemma PollBeginFrom(s: Supervisor, m: Name, n: Name, src: Source)
    ensures From(s, OnPollBegin(s, m), n, src)
  {
    WritesFrom(s, OnPollBegin(s, m), n, src);
  }

  lemma PollResultFrom(s: Supervisor, k: nat, ok: bool, n: Name, src: Source)
    ensures From(s, OnPollResult(s, k, ok), n, src)
  {
    WritesFrom(s, OnPollResult(s, k, ok), n, src);
  }

  lemma TrivialFrom(s: Supervisor, m: Name, ms: nat, n: Name, src: Source)
    ensures From(s, OnTick(s, ms), n, src) && From(s, OnForgetHealth(s, m), n, src)
  {
    WritesFrom(s, OnTick(s, ms), n, src);
    WritesFrom(s, OnForgetHealth(s, m), n, src);
  }

  lemma EntryWritesFrom(s: Supervisor, m: Name, reachable: bool, suspended: bool, n: Name, src: Source)
    ensures From(s, Awake(s, m, reachable, suspended), n, src)
            && From(s, OnRemoteProbe(s, m, reachable), n, src)
    ensures From(s, OnBootMarksRunning(s, m), n, src)
  {
    WritesFrom(s, Awake(s, m, reachable, suspended), n, src);
    WritesFrom(s, OnRemoteProbe(s, m, reachable), n, src);
    WritesFrom(s, OnBootMarksRunning(s, m), n, src);
  }

  lemma PromiseFrom(s: Supervisor, e: Event, n: Name, src: Source)
    requires Promises(e)
    ensures From(s, Step(s, e), n, src)
  {
    PromisesAre(s, e);
    hide Step;
    WritesFrom(s, Step(s, e), n, src);
  }

  lemma CleanupFrom(s: Supervisor, graceMs: nat, k: nat, n: Name, src: Source)
    ensures From(s, OnCleanup(s, graceMs), n, src) && From(s, OnGraceOver(s, k), n, src)
  {
    WritesFrom(s, OnCleanup(s, graceMs), n, src);
    WritesFrom(s, OnGraceOver(s, k), n, src);
  }

  lemma IdleStopFrom(s: Supervisor, m: Name, n: Name, src: Source)
    ensures From(s, OnIdleStop(s, m), n, src)
  {
    WritesFrom(s, OnIdleStop(s, m), n, src);
  }

  lemma RemoveFrom(s: Supervisor, m: Name, n: Name)
    ensures From(s, RemoveService(s, m), n, NOTHING.(dropped := m == n))
  {
    var src := NOTHING.(dropped := m == n);
    if Registered(s, m) {
      var s1 := SignalService(s, m, false);
      WritesFrom(s, s1, n, src);
      assert s1.state == s.state && s1.tallies == s.tallies;
      hide SignalService;
      var s' := RemoveService(s, m);
      forall p ensures ProcessFrom(s, s', n, src, p) && SpawnFrom(s, s', n, src, p) && SameChild(s, s', p) {
        assert ProcessFrom(s, s1, n, src, p) && SpawnFrom(s, s1, n, src, p) && SameChild(s, s1, p);
      }
      forall t ensures TaskFrom(s, s', n, src, t) { assert TaskFrom(s, s1, n, src, t); }
      forall k ensures TimerFrom(s, s', n, src, k) { assert TimerFrom(s, s1, n, src, k); }
      forall q ensures RequestFrom(s, s', n, src, q) { assert RequestFrom(s, s1, n, src, q); }
      forall r ensures RowFrom(s, s', n, src, r) { assert RowFrom(s, s1, n, src, r); }
    } else {
      FromSelf(s, n, src);
    }
  }

  lemma InstallFrom(s: Supervisor, m: Name, st: ProcessState, n: Name, src: Source)
    requires Inv(s) && (m == n ==> st.svc in src.started && (st.remote.Some? ==> src.away))
    ensures From(s, Install(s, m, st), n, src)
  {
    var s' := Install(s, m, st);
    assert StateOk(s.rows, s.state, n);
    forall p ensures ProcessFrom(s, s', n, src, p) {
      if 0 <= p < |s.children| { assert ChildOk(s.rows, s.children, s.procs, p); }
    }
    forall q ensures RequestFrom(s, s', n, src, q) {}
  }

  lemma RegistrationsFrom(s: Supervisor, svc: ServiceConfig, env: string, n: Name, src: Source)
    requires Inv(s) && (svc.name == n ==> svc in src.started)
    ensures From(s, OnRegisterLazy(s, svc), n, src)
    ensures (svc.name == n ==> src.away) ==> From(s, OnRegisterRemote(s, svc, env), n, src)
  {
    InstallFrom(s, svc.name, OnRegisterLazy(s, svc).rows[|s.rows|], n, src);
    if svc.name == n ==> src.away { InstallFrom(s, svc.name, OnRegisterRemote(s, svc, env).rows[|s.rows|], n, src); }
  }

  lemma RemoteCommitFrom(s: Supervisor, r: RowId, svc: ServiceConfig, env: string, n: Name, src: Source)
    requires Inv(s) && (svc.name == n ==> svc in src.started && src.away)
    ensures From(s, OnRemoteCommit(s, r, svc, env), n, src)
  {
    assert StateOk(s.rows, s.state, n);
  }

  lemma LocalCommitFrom(s: Supervisor, r: RowId, svc: ServiceConfig, n: Name, src: Source)
    requires Inv(s) && (svc.name == n ==> svc in src.started)
    ensures From(s, OnLocalCommit(s, r, svc), n, src)
  {
    assert StateOk(s.rows, s.state, n);
  }

  // ---------------------------------------------------------------- exits

  /** Only child `p` and the state object its handlers close over were written, and any new timer is
   *  for the configuration of `p`. */
  ghost predicate WroteExit(s: Supervisor, s': Supervisor, p: ChildId)
    requires p < |s.children| && s.children[p].row < |s.rows|
  {
    var c := s.children[p];
    && s'.state == s.state && s'.starts == s.starts && s'.requests == s.requests
    && |s'.rows| == |s.rows| && s'.rows == s.rows[c.row := s'.rows[c.row]]
    && s'.rows[c.row].svc == s.rows[c.row].svc && s'.rows[c.row].remote == s.rows[c.row].remote
    && |s'.children| == |s.children| && s'.children == s.children[p := s'.children[p]]
    && s'.children[p].svc == c.svc && s'.children[p].row == c.row && s'.children[p].exited
    && forall k :: k in s'.queue.timers ==>
         (k in s.queue.timers && s'.queue.timers[k] == s.queue.timers[k]) || s'.queue.timers[k].svc == c.svc
  }

  lemma GoneWrites(s: Supervisor, p: ChildId)
    requires p < |s.children| && s.children[p].row < |s.rows|
    ensures WroteExit(s, ChildGone(s, p), p) && ChildGone(s, p).queue == s.queue
  {}

  lemma CrashWrites(s: Supervisor, p: ChildId, intentionalStop: bool)
    requires p < |s.children| && s.children[p].exited && s.children[p].row < |s.rows|
    ensures var s' := CountCrash(s, p, intentionalStop);
            && WroteExit(s, s', p) && s'.queue == s.queue
            && WroteExit(s, ScheduleAutoRestart(s', p), p)
  {
    var s' := CountCrash(s, p, intentionalStop);
    assert s'.state == s.state && s'.starts == s.starts && s'.requests == s.requests && s'.queue == s.queue;
    assert s'.children[p] == s.children[p].(crashCounted := true);
    hide CountCrash, Pow2;
  }

  lemma WroteTransitive(a: Supervisor, b: Supervisor, c: Supervisor, p: ChildId)
    requires p < |a.children| && a.children[p].row < |a.rows| && WroteExit(a, b, p) && WroteExit(b, c, p)
    ensures WroteExit(a, c, p)
  {}

  /** An exit that queues a restart is that of a process nobody stopped. */
  lemma CloseWrites(s: Supervisor, p: ChildId, cleanExit: bool)
    requires p < |s.children| && !s.children[p].exited && s.children[p].row < |s.rows|
    ensures WroteExit(s, OnClose(s, p, cleanExit), p)
    ensures !Loose(s, p, s.children[p].svc.name) ==> OnClose(s, p, cleanExit).queue == s.queue
  {
    var c, s1 := s.children[p], ChildGone(s, p);
    GoneWrites(s, p);
    hide ChildGone;
    CrashWrites(s1, p, false);
    WroteTransitive(s, s1, CountCrash(s1, p, false), p);
    WroteTransitive(s, s1, ScheduleAutoRestart(CountCrash(s1, p, false), p), p);
    hide ScheduleAutoRestart, CountCrash;
  }

  lemma CloseChildFrom(s: Supervisor, p: ChildId, cleanExit: bool, n: Name, src: Source, x: int)
    requires Inv(s) && p < |s.children| && !s.children[p].exited && s.children[p].row < |s.rows|
    ensures var s' := OnClose(s, p, cleanExit);
            ProcessFrom(s, s', n, src, x) && SpawnFrom(s, s', n, src, x) && SameChild(s, s', x)
  {
    CloseWrites(s, p, cleanExit);
    hide OnClose;
    assert ChildOk(s.rows, s.children, s.procs, p) && ChildOk(s.rows, s.children, s.procs, x);
  }

  lemma CloseFrom(s: Supervisor, p: ChildId, cleanExit: bool, n: Name, src: Source)
    requires Inv(s) && (Loose(s, p, n) ==> s.children[p].svc in src.queued)
    ensures From(s, OnClose(s, p, cleanExit), n, src)
  {
    if p < |s.children| && !s.children[p].exited && s.children[p].row < |s.rows| {
      CloseWrites(s, p, cleanExit);
      hide OnClose, ProcessFrom, SpawnFrom, SameChild;
      var s' := OnClose(s, p, cleanExit);
      assert ChildOk(s.rows, s.children, s.procs, p);
      forall x ensures ProcessFrom(s, s', n, src, x) && SpawnFrom(s, s', n, src, x) && SameChild(s, s', x) {
        CloseChildFrom(s, p, cleanExit, n, src, x);
      }
      forall k ensures TimerFrom(s, s', n, src, k) {}
    } else {
      FromSelf(s, n, src);
    }
  }

  // ---------------------------------------------------------------- starts

  lemma SettleFrom(a: Supervisor, s: Supervisor, t: TaskId, outcome: Outcome, n: Name, src: Source)
    requires Inv(s) && t < |s.starts.tasks| && From(a, s, n, src)
    ensures From(a, Settle(s, t, outcome), n, src)
  {
    var s' := Settle(s, t, outcome);
    WritesFrom(s, s', n, src);
    assert StateOk(s.rows, s.state, n);
    hide From, Inv, Settle;
    FromTransitive(a, s, s', n, src);
  }

  lemma SetTaskFrom(a: Supervisor, s: Supervisor, t: TaskId, task: StartTask, n: Name, src: Source)
    requires Inv(s) && t < |s.starts.tasks| && From(a, s, n, src)
    requires task.svc == s.starts.tasks[t].svc && (s.starts.tasks[t].phase.Settled? ==> task.phase.Settled?)
    ensures From(a, SetTask(s, t, task), n, src)
  {
    WritesFrom(s, SetTask(s, t, task), n, src);
    assert StateOk(s.rows, s.state, n);
    hide From, Inv;
    FromTransitive(a, s, SetTask(s, t, task), n, src);
  }

  /** The start is of another name, or of a configuration that may be started. */
  predicate MayStart(s: Supervisor, t: TaskId, n: Name, src: Source) {
    t < |s.starts.tasks| && (s.starts.tasks[t].svc.name == n ==> s.starts.tasks[t].svc in src.started)
  }

  lemma FailFrom(a: Supervisor, s: Supervisor, t: TaskId, n: Name, src: Source)
    requires Inv(s) && MayStart(s, t, n, src) && From(a, s, n, src)
    ensures From(a, Settle(RecordCrashed(s, s.starts.tasks[t].svc), t, FailedBeforeStart), n, src)
  {
    var svc := s.starts.tasks[t].svc;
    var s1 := RecordCrashed(s, svc);
    InstallFrom(s, svc.name, s1.rows[|s.rows|], n, src);
    RecordCrashedKeeps(s, svc);
    assert StateOk(s.rows, s.state, n);
    hide From, Inv, Settle;
    FromTransitive(a, s, s1, n, src);
    SettleFrom(a, s1, t, FailedBeforeStart, n, src);
  }

  lemma SpawnFromTask(a: Supervisor, s: Supervisor, t: TaskId, succeeds: bool, n: Name, src: Source)
    requires Inv(s) && MayStart(s, t, n, src) && From(a, s, n, src)
    ensures From(a, Spawn(s, t, succeeds), n, src)
  {
    var s' := Spawn(s, t, succeeds);
    assert StateOk(s.rows, s.state, n);
    forall p ensures ProcessFrom(s, s', n, src, p) && SpawnFrom(s, s', n, src, p) && SameChild(s, s', p) {
      if 0 <= p < |s.children| { assert ChildOk(s.rows, s.children, s.procs, p); }
    }
    forall q ensures RequestFrom(s, s', n, src, q) {}
    assert From(s, s', n, src);
    hide From, Inv, Spawn;
    FromTransitive(a, s, s', n, src);
  }

  lemma AfterBuildFrom(a: Supervisor, s: Supervisor, t: TaskId, world: World, n: Name, src: Source)
    requires Inv(s) && MayStart(s, t, n, src) && From(a, s, n, src)
    ensures From(a, AfterBuild(s, t, world), n, src)
  {
    FailFrom(a, s, t, n, src);
    SpawnFromTask(a, s, t, world.spawnSucceeds, n, src);
    SettleFrom(a, s, t, Removed, n, src);
    SettleFrom(a, s, t, Refused, n, src);
    hide From, Inv, Settle, Spawn, RecordCrashed;
  }

  lemma AfterPortFrom(a: Supervisor, s: Supervisor, t: TaskId, world: World, n: Name, src: Source)
    requires Inv(s) && MayStart(s, t, n, src) && From(a, s, n, src)
    requires !s.starts.tasks[t].phase.Settled?
    ensures From(a, AfterPort(s, t, world), n, src) && From(a, PortTaken(s, t), n, src)
  {
    var task := s.starts.tasks[t];
    var s1 := ClearStartupTimer(s, task.svc.name, None);
    ClearStartupTimerKeeps(s, task.svc.name, None);
    WritesFrom(s, s1, n, src);
    assert StateOk(s.rows, s.state, n);
    assert s1.starts == s.starts;
    hide From, Inv, ClearStartupTimer, AfterBuild, Settle, RecordCrashed;
    FromTransitive(a, s, s1, n, src);
    AfterBuildFrom(a, s1, t, world, n, src);
    SettleFrom(a, s1, t, Refused, n, src);
    SetTaskFrom(a, s1, t, task.(phase := Building), n, src);
    FailFrom(a, s1, t, n, src);
  }

  lemma EnterFrom(a: Supervisor, s: Supervisor, task: StartTask, n: Name, src: Source)
    requires Inv(s) && From(a, s, n, src) && (task.svc.name == n ==> task.svc in src.started)
    ensures From(a, Enter(s, task), n, src)
  {
    assert StateOk(s.rows, s.state, n);
    assert From(s, Enter(s, task), n, src);
    hide From, Inv;
    FromTransitive(a, s, Enter(s, task), n, src);
  }

  /** A start that the spawner refuses at once adds nothing. */
  lemma RefusedFrom(a: Supervisor, s: Supervisor, task: StartTask, outcome: Outcome, n: Name, src: Source)
    requires Inv(s) && From(a, s, n, src)
    ensures From(a, Settle(Enter(s, task), |s.starts.tasks|, outcome), n, src)
  {
    var s' := Settle(Enter(s, task), |s.starts.tasks|, outcome);
    assert StateOk(s.rows, s.state, n);
    assert From(s, s', n, src);
    hide From, Inv, Settle;
    FromTransitive(a, s, s', n, src);
  }

  lemma StartFrom(a: Supervisor, s: Supervisor, svc: ServiceConfig, isRestart: bool, auto: bool, world: World,
                  n: Name, src: Source)
    requires Inv(s) && From(a, s, n, src) && (svc.name == n ==> Elsewhere(s, n) || svc in src.started)
    ensures From(a, Start(s, svc, isRestart, auto, world), n, src)
  {
    if svc.name in s.starts.starting {
      assert StartingOk(s.starts, svc.name);
      var t := s.starts.starting[svc.name];
      SetTaskFrom(a, s, t, s.starts.tasks[t].(auto := true), n, src);
    } else {
      var t, task := |s.starts.tasks|, StartTask(svc, isRestart, Generation(s, svc.name), auto, PortCheck);
      RefusedFrom(a, s, task, Refused, n, src);
      EnterKeeps(s, task);
      hide From, Inv, Settle, AfterPort, Enter;
      if !s.closing && !Elsewhere(s, svc.name) {
        EnterFrom(a, s, task, n, src);
        Entered(s, task);
        AfterPortFrom(a, Enter(s, task), t, world, n, src);
      }
    }
  }

  lemma Entered(s: Supervisor, task: StartTask)
    ensures |Enter(s, task).starts.tasks| == |s.starts.tasks| + 1
    ensures Enter(s, task).starts.tasks[|s.starts.tasks|] == task
  {}

  lemma HeldFrom(s: Supervisor, t: TaskId, n: Name, src: Source)
    requires Inv(s) && InFlight(s, t)
    ensures From(s, Settle(s, t, LeftAlone), n, src)
    ensures var task := s.starts.tasks[t];
            Registered(s, task.svc.name) && IsRunning(s, Entry(s, task.svc.name)) ==>
              From(s, SetTask(s, t, task.(phase := ExitWait(Entry(s, task.svc.name).proc.value,
                                                            s.clock + STOP_GRACE_MS))), n, src)
  {
    var task := s.starts.tasks[t];
    FromSelf(s, n, src);
    SettleFrom(s, s, t, LeftAlone, n, src);
    if Registered(s, task.svc.name) && IsRunning(s, Entry(s, task.svc.name)) {
      SetTaskFrom(s, s, t, task.(phase := ExitWait(Entry(s, task.svc.name).proc.value, s.clock + STOP_GRACE_MS)), n,
                  src);
    }
  }

  lemma PortResultFrom(s: Supervisor, t: TaskId, bindable: bool, world: World, n: Name, src: Source)
    requires Inv(s) && (InFlightOf(s, t, n) ==> s.starts.tasks[t].svc in src.started)
    ensures From(s, OnPortResult(s, t, bindable, world), n, src)
  {
    FromSelf(s, n, src);
    if InFlight(s, t) {
      assert MayStart(s, t, n, src);
      hide From, Inv, Settle, AfterPort, PortTaken, SetTask, MayStart, InFlightOf;
      var task := s.starts.tasks[t];
      if task.phase.PortCheck? && !bindable && !task.isRestart
         && Registered(s, task.svc.name) && IsRunning(s, Entry(s, task.svc.name)) {
        HeldFrom(s, t, n, src);
      } else if task.phase.PortCheck? || task.phase.PortRecheck? {
        AfterPortFrom(s, s, t, world, n, src);
      }
    }
  }

  lemma WaitAndBuildFrom(s: Supervisor, t: TaskId, ok: bool, world: World, n: Name, src: Source)
    requires Inv(s)
    ensures From(s, OnExitWaitOver(s, t), n, src)
    ensures (InFlightOf(s, t, n) ==> s.starts.tasks[t].svc in src.started) ==>
          From(s, OnBuildResult(s, t, ok, world), n, src)
  {
    FromSelf(s, n, src);
    if InFlight(s, t) {
      SetTaskFrom(s, s, t, s.starts.tasks[t].(phase := PortRecheck), n, src);
      if InFlightOf(s, t, n) ==> s.starts.tasks[t].svc in src.started {
        AfterBuildFrom(s, s, t, world, n, src);
        FailFrom(s, s, t, n, src);
      }
      hide From, Inv, Settle, AfterBuild, SetTask, RecordCrashed;
    }
  }

  lemma RestartTimerFrom(s: Supervisor, timer: TimerId, world: World, n: Name, src: Source)
    requires Inv(s) && (TimerFor(s, n, timer) ==> Elsewhere(s, n) || s.queue.timers[timer].svc in src.started)
    ensures From(s, OnRestartTimer(s, timer, world), n, src)
  {
    FromSelf(s, n, src);
    if RestartTimerDue(s, timer) {
      var svc := s.queue.timers[timer].svc;
      var s1 := s.(queue := s.queue.(timers := s.queue.timers - {timer}, pending := s.queue.pending - {svc.name}));
      forall m ensures PendingOk(s1.queue, m) { assert PendingOk(s.queue, m); }
      forall k ensures TimerOk(s1.queue, k) { assert TimerOk(s.queue, k); }
      WritesFrom(s, s1, n, src);
      assert OnRestartTimer(s, timer, world) == Start(s1, svc, true, true, world);
      assert Inv(s1);
      hide From, Inv, Start, OnRestartTimer;
      StartFrom(s, s1, svc, true, true, world, n, src);
    }
  }

  lemma HandOverFrom(s: Supervisor, q: nat, isRestart: bool, world: World, n: Name, src: Source)
    requires Inv(s) && q < |s.requests| && !s.requests[q].phase.Handed?
    requires Open(s, q, n) && s.requests[q].row < |s.rows| ==>
          Elsewhere(s, n) || s.rows[s.requests[q].row].svc in src.started
    ensures From(s, HandOver(s, q, isRestart, world), n, src)
  {
    var req := s.requests[q];
    var s1 := s.(requests := s.requests[q := req.(phase := Handed)]);
    AdvanceRequest(s, q, Handed);
    assert RequestOk(s.rows, s.requests, q);
    WritesFrom(s, s1, n, src);
    assert Elsewhere(s1, n) == Elsewhere(s, n);
    hide From, Inv, Start;
    StartFrom(s, s1, s.rows[req.row].svc, isRestart, false, world, n, src);
  }

  lemma HandOversFrom(s: Supervisor, q: nat, world: World, n: Name)
    requires Inv(s)
    ensures From(s, OnInstallDone(s, q, world), n, HandedOver(s, q, n))
    ensures From(s, OnRestartResume(s, q, world), n, HandedOver(s, q, n))
  {
    FromSelf(s, n, HandedOver(s, q, n));
    if q < |s.requests| && !s.requests[q].phase.Handed? {
      HandOverFrom(s, q, false, world, n, HandedOver(s, q, n));
      HandOverFrom(s, q, true, world, n, HandedOver(s, q, n));
      hide From, Inv, HandOver;
    }
  }

  // ---------------------------------------------------------------- explicit starts

  /** A request of the name is for a configuration that may be asked for. */
  predicate MayAsk(s: Supervisor, n: Name, src: Source) {
    Registered(s, n) ==> Entry(s, n).svc in src.asked
  }

  lemma AskFrom(s: Supervisor, m: Name, phase: RequestPhase, n: Name, src: Source)
    requires Inv(s) && Registered(s, m) && (m == n ==> MayAsk(s, n, src))
    ensures From(s, s.(requests := s.requests + [Request(m, s.state[m], phase)]), n, src)
  {
    assert StateOk(s.rows, s.state, m);
  }

  lemma AfterDrainFrom(s: Supervisor, q: nat, n: Name, src: Source)
    requires q < |s.requests| && !s.requests[q].phase.Handed?
    ensures From(s, AfterDrain(s, q), n, src)
  {
    WritesFrom(s, AfterDrain(s, q), n, src);
  }

  lemma DrainOverFrom(s: Supervisor, q: nat, n: Name, src: Source)
    ensures From(s, OnDrainOver(s, q), n, src)
  {
    FromSelf(s, n, src);
    if q < |s.requests| && s.requests[q].phase.Draining? {
      AfterDrainFrom(s, q, n, src);
      WritesFrom(s, s.(requests := s.requests[q := s.requests[q].(phase := Handed)]), n, src);
      hide From, AfterDrain;
    }
  }

  lemma StartServiceFrom(s: Supervisor, m: Name, n: Name, src: Source)
    requires Inv(s) && (m == n && !Elsewhere(s, n) ==> MayAsk(s, n, src))
    ensures From(s, OnStartService(s, m), n, src)
  {
    FromSelf(s, n, src);
    hide From;
    if Registered(s, m) && Entry(s, m).remote.None? {
      AskFrom(s, m, Installing, n, src);
      var s1 := s.(requests := s.requests + [Request(m, s.state[m], Installing)]);
      AfterDrainFrom(s1, |s.requests|, n, src);
      assert StateOk(s.rows, s.state, n);
      if IsRunning(s, Entry(s, m)) {
        AskFrom(s, m, Draining(Entry(s, m).proc.value, s.clock + STOP_GRACE_MS), n, src);
      }
      hide Inv, AfterDrain;
      FromTransitive(s, s1, AfterDrain(s1, |s.requests|), n, src);
    }
  }

  lemma StopKeepsNames(s: Supervisor, m: Name)
    ensures var s1 := StopService(s, m);
            && s1.state == s.state && |s1.rows| == |s.rows| && s1.requests == s.requests
            && forall r :: 0 <= r < |s.rows| ==> s1.rows[r].svc == s.rows[r].svc
  {}

  lemma RestartServiceFrom(s: Supervisor, m: Name, n: Name, src: Source)
    requires Inv(s) && (m == n ==> MayAsk(s, n, src))
    ensures From(s, OnRestartService(s, m), n, src)
  {
    FromSelf(s, n, src);
    hide From, StopService;
    if Registered(s, m) {
      var s1 := StopService(s, m);
      StopServiceFrom(s, m, n, src);
      StopKeepsNames(s, m);
      StopServiceKeeps(s, m);
      assert StateOk(s.rows, s.state, n);
      var delay := if IsRunning(s1, Entry(s1, m)) then RESTART_SETTLE_LIVE_MS else RESTART_SETTLE_DEAD_MS;
      AskFrom(s1, m, Settling(s.clock + delay), n, src);
      var s2 := s1.(requests := s1.requests + [Request(m, s1.state[m], Settling(s.clock + delay))]);
      var s' := OnRestartService(s, m);
      WritesFrom(s2, s', n, src);
      hide Inv, OnRestartService;
      FromTransitive(s, s1, s2, n, src);
      FromTransitive(s, s2, s', n, src);
    }
  }

  // ---------------------------------------------------------------- steps

  lemma SourcesAre(s: Supervisor, e: Event, n: Name)
    ensures var src := Sources(s, e, n);
            && (e.StartCall? && e.svc.name == n ==> Elsewhere(s, n) || e.svc in src.started)
            && ((e.PortResult? || e.BuildResult?) && InFlightOf(s, e.task, n) ==>
              s.starts.tasks[e.task].svc in src.started)
            && (e.RestartTimerFires? && TimerFor(s, n, e.timer) ==>
                  Elsewhere(s, n) || s.queue.timers[e.timer].svc in src.started)
            && ((e.InstallDone? || e.RestartResume?) ==> src == HandedOver(s, e.request, n))
            && (e.Close? && Loose(s, e.child, n) ==> s.children[e.child].svc in src.queued)
            && (e.StartServiceCall? && e.name == n && !Elsewhere(s, n) ==> MayAsk(s, n, src))
            && (e.RestartServiceCall? && e.name == n ==> MayAsk(s, n, src))
            && ((e.RegisterLazyCall? || e.RegisterRemoteCall? || e.RemoteCommit? || e.LocalCommit?) ==>
                  e.svc.name == n ==> e.svc in src.started)
            && ((e.RegisterRemoteCall? || e.RemoteCommit?) && e.svc.name == n ==> src.away)
            && (e.RemoveCall? ==> src == NOTHING.(dropped := e.name == n))
  {}

  /** Steps that bring nothing in on their own. */
  lemma WritingStepFrom(s: Supervisor, e: Event, n: Name, src: Source)
    requires e.Tick? || e.Line? || e.StartupTimerFires? || e.StopCall? || e.ForceStopCall? || e.CancelCall?
          || e.DrainOver? || e.CleanupCall? || e.GraceOver? || e.PollBegin? || e.PollResult? || e.ForgetHealthCall?
          || e.BootMarksRunning? || e.IdleStopCall? || e.RemoteProbe? || Promises(e)
    ensures From(s, Step(s, e), n, src)
  {
    hide *;
    StepIs(s, e);
    PromiseEvents(e);
    match e
    case Tick(ms) => TrivialFrom(s, "", ms, n, src);
    case Line(p, matches) => OutputFrom(s, p, matches, 0, n, src);
    case StartupTimerFires(r) => OutputFrom(s, 0, true, r, n, src);
    case StopCall(m) => StopServiceFrom(s, m, n, src);
    case ForceStopCall(m) => StopFrom(s, m, true, n, src);
    case CancelCall(m) => StopFrom(s, m, true, n, src);
    case DrainOver(q) => DrainOverFrom(s, q, n, src);
    case CleanupCall(graceMs) => CleanupFrom(s, graceMs, 0, n, src);
    case GraceOver(k) => CleanupFrom(s, 0, k, n, src);
    case PollBegin(m) => PollBeginFrom(s, m, n, src);
    case PollResult(k, ok) => PollResultFrom(s, k, ok, n, src);
    case ForgetHealthCall(m) => TrivialFrom(s, m, 0, n, src);
    case BootMarksRunning(m) => EntryWritesFrom(s, m, true, true, n, src);
    case IdleStopCall(m) => IdleStopFrom(s, m, n, src);
    case WakeBegin(svc) => PromiseFrom(s, e, n, src);
    case WakeSettles(w, reachable) => PromiseFrom(s, e, n, src);
    case WakeGivesUp(w) => PromiseFrom(s, e, n, src);
    case RemoteProbe(m, reachable) => EntryWritesFrom(s, m, reachable, true, n, src);
    case OnceSettles(svc, reachable) => PromiseFrom(s, e, n, src);
    case OnceReports(k) => PromiseFrom(s, e, n, src);
  }

  /** Every step: what can bring the name up afterwards could before, or the event brings it in. */
  lemma StepComesFrom(s: Supervisor, e: Event, n: Name)
    requires Inv(s)
    ensures From(s, Step(s, e), n, Sources(s, e, n))
  {
    SourcesAre(s, e, n);
    var src := Sources(s, e, n);
    hide *;
    StepIs(s, e);
    PromiseEvents(e);
    match e
    case StartCall(svc, isRestart, world) => FromSelf(s, n, src); StartFrom(s, s, svc, isRestart, false, world, n, src);
    case PortResult(t, bindable, world) => PortResultFrom(s, t, bindable, world, n, src);
    case ExitWaitOver(t) => WaitAndBuildFrom(s, t, true, World(true, true), n, src);
    case BuildResult(t, ok, world) => WaitAndBuildFrom(s, t, ok, world, n, src);
    case Close(p, cleanExit) => CloseFrom(s, p, cleanExit, n, src);
    case RestartTimerFires(timer, world) => RestartTimerFrom(s, timer, world, n, src);
    case RemoveCall(m) => RemoveFrom(s, m, n);
    case StartServiceCall(m) => StartServiceFrom(s, m, n, src);
    case InstallDone(q, world) => HandOversFrom(s, q, world, n);
    case RestartServiceCall(m) => RestartServiceFrom(s, m, n, src);
    case RestartResume(q, world) => HandOversFrom(s, q, world, n);
    case RegisterLazyCall(svc) => RegistrationsFrom(s, svc, "", n, src);
    case RegisterRemoteCall(svc, env) => RegistrationsFrom(s, svc, env, n, src);
    case RemoteCommit(r, svc, env) => RemoteCommitFrom(s, r, svc, env, n, src);
    case LocalCommit(r, svc) => LocalCommitFrom(s, r, svc, n, src);
    case _ => WritingStepFrom(s, e, n, src);
  }
}
