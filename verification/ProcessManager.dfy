/** The process manager as it is written: state objects and child processes with identity, one
 *  registry that every component shares, and methods that update them step by step.  Each method is
 *  one segment between two awaits and does to the abstract state what the step machine says. */
module ProcessManagement {
  import opened Options
  import opened Supervision
  import opened SegmentOrder

  class ChildProcess {
    const id: ChildId
    const svc: ServiceConfig
    const state: StateObject     // what its handlers close over
    const spawned: bool          // `pid` is defined
    var exited: bool
    var sigterm: bool
    var sigkill: bool
    ghost var stopped: bool
    ghost var crashCounted: bool
    ghost var requeued: bool

    constructor (id: ChildId, svc: ServiceConfig, state: StateObject, spawned: bool)
      ensures this.id == id && this.svc == svc && this.state == state && this.spawned == spawned
      ensures View() == Child(svc, state.id, spawned, false, false, false, false, false, false)
    {
      this.id, this.svc, this.state, this.spawned := id, svc, state, spawned;
      exited, sigterm, sigkill, stopped, crashCounted, requeued := false, false, false, false, false, false;
    }

    ghost function View(): Child
      reads this
    {
      Child(svc, state.id, spawned, exited, stopped, sigterm, sigkill, crashCounted, requeued)
    }
  }

  class StateObject {
    const id: RowId
    ghost const owned: Option<ChildId>
    var svc: ServiceConfig
    var proc: ChildProcess?
    var pid: Option<nat>
    var status: Status
    var health: Health
    var restarts: nat
    var crashes: nat
    var startedAt: Option<nat>
    var intentionalStop: bool
    var restartPendingUntil: Option<nat>
    var remote: Option<string>

    constructor (id: RowId, ghost owned: Option<ChildId>, svc: ServiceConfig, status: Status, health: Health,
                 restarts: nat, crashes: nat, startedAt: Option<nat>, remote: Option<string>)
      ensures this.id == id && proc == null
      ensures View() == ProcessState(svc, owned, None, None, status, health, restarts, crashes, startedAt, false,
                                     None, remote)
    {
      this.id, this.owned, this.svc, this.proc, this.pid := id, owned, svc, null, None;
      this.status, this.health, this.restarts, this.crashes := status, health, restarts, crashes;
      this.startedAt, this.intentionalStop, this.restartPendingUntil, this.remote := startedAt, false, None, remote;
    }

    ghost function View(): ProcessState
      reads this
    {
      ProcessState(svc, owned, if proc == null then None else Some(proc.id), pid, status, health, restarts, crashes,
                   startedAt, intentionalStop, restartPendingUntil, remote)
    }

    /** `isRunning` of liveness.ts. */
    predicate Running()
      reads this, proc
    {
      proc != null && !proc.exited
    }
  }

  ghost function RowViews(rows: seq<StateObject>): (s: seq<ProcessState>)
    reads rows
    ensures |s| == |rows|
  {
    seq(|rows|, r requires 0 <= r < |rows| reads rows => rows[r].View())
  }

  ghost function ChildViews(children: seq<ChildProcess>): (s: seq<Child>)
    reads children
    ensures |s| == |children|
  {
    seq(|children|, p requires 0 <= p < |children| reads children => children[p].View())
  }

  class ProcessManager {
    var clock: nat
    var closing: bool
    var state: map<Name, StateObject>
    var rows: seq<StateObject>        // every state object ever made, in order
    var children: seq<ChildProcess>   // every child process ever made, in order
    var procs: set<ChildProcess>
    var starts: Starts
    var windows: Windows
    var queue: Queue
    var tallies: Tallies
    var requests: seq<Request>
    var polls: seq<Poll>
    var wakes: seq<Wake>
    var reports: seq<Report>
    var cleanups: seq<Cleanup>

    /** The objects are where their numbers say. */
    ghost predicate Numbered()
      reads `rows, `children
    {
      && (forall r :: 0 <= r < |rows| ==> rows[r].id == r)
      && (forall p :: 0 <= p < |children| ==> children[p].id == p && children[p].state in rows)
    }

    /** They belong together: what is registered or alive was made here, and a state object's
     *  process is the one that closes over it. */
    ghost predicate Valid()
      reads `rows, `children, `state, `procs, rows
    {
      && Numbered()
      && (forall n :: n in state ==> state[n] in rows)
      && (forall c :: c in procs ==> c in children)
      && (forall st :: st in rows && st.proc != null ==> st.proc in children && st.proc.state == st)
    }

    ghost function RowsView(): (s: seq<ProcessState>)
      reads `rows, rows
      ensures |s| == |rows|
    {
      RowViews(rows)
    }

    ghost function ChildrenView(): (s: seq<Child>)
      reads `children, children
      ensures |s| == |children|
    {
      ChildViews(children)
    }

    ghost function StateView(): map<Name, RowId>
      reads `state
    {
      map n | n in state :: state[n].id
    }

    ghost function ProcsView(): set<ChildId>
      reads `procs
    {
      set c | c in procs :: c.id
    }

    /** The abstract state. */
    ghost function View(): Supervisor
      reads this, rows, children
    {
      Supervisor(clock, closing, StateView(), RowsView(), ChildrenView(), ProcsView(),
                 starts, windows, queue, tallies, requests, polls, wakes, reports, cleanups)
    }

    constructor ()
      ensures Valid() && Initial(View())
    {
      clock, closing, state, rows, children, procs := 0, false, map[], [], [], {};
      starts, windows := Starts([], map[]), Windows(map[], map[]);
      queue, tallies := Queue(map[], map[], 0), Tallies(map[], map[]);
      requests, polls, wakes, reports, cleanups := [], [], [], [], [];
    }

    /** New objects may have come, behind the old ones. */
    twostate predicate Grown()
      reads `rows, `children
    {
      && old(rows) <= rows && old(children) <= children
      && (forall st :: st in rows ==> st in old(rows) || fresh(st))
      && (forall c :: c in children ==> c in old(children) || fresh(c))
    }

    twostate lemma RowAdded(st: StateObject)
      requires rows == old(rows) + [st] && forall x :: x in old(rows) ==> unchanged(x)
      ensures RowsView() == old(RowsView()) + [st.View()]
    {
      forall r | 0 <= r < |old(rows)|
        ensures RowsView()[r] == old(RowsView())[r]
      {
        var x := old(rows)[r];
        assert x in old(rows) && x == rows[r];
      }
    }

    twostate lemma ChildAdded(c: ChildProcess)
      requires children == old(children) + [c] && forall x :: x in old(children) ==> unchanged(x)
      ensures ChildrenView() == old(ChildrenView()) + [c.View()]
    {
      forall p | 0 <= p < |old(children)|
        ensures ChildrenView()[p] == old(ChildrenView())[p]
      {
        var x := old(children)[p];
        assert x in old(children) && x == children[p];
      }
    }

    /** Writing one state object writes one entry of the abstract state. */
    twostate lemma OneRowWritten(st: StateObject)
      requires Numbered() && rows == old(rows) && st in rows
      requires forall x :: x in rows && x != st ==> unchanged(x)
      ensures st.id < |rows| && RowsView() == old(RowsView())[st.id := st.View()]
    {
      forall r | 0 <= r < |rows|
        ensures RowsView()[r] == if r == st.id then st.View() else old(RowsView())[r]
      {
        var x := rows[r];
        assert x in rows && x.id == r;
        assert x != st ==> x.View() == old(x.View());
      }
    }

    twostate lemma OneChildWritten(c: ChildProcess)
      requires Numbered() && children == old(children) && c in children
      requires forall x :: x in children && x != c ==> unchanged(x)
      ensures c.id < |children| && ChildrenView() == old(ChildrenView())[c.id := c.View()]
    {
      forall p | 0 <= p < |children|
        ensures ChildrenView()[p] == if p == c.id then c.View() else old(ChildrenView())[p]
      {
        var x := children[p];
        assert x in children && x.id == p;
        assert x != c ==> x.View() == old(x.View());
      }
    }

    /** What the abstract state says about a state object. */
    lemma RowViewed(st: StateObject)
      requires Valid() && st in rows
      ensures st.id < |rows| && View().rows[st.id] == st.View()
      ensures st.proc != null ==> st.proc.id < |children| && View().children[st.proc.id] == st.proc.View()
      ensures IsRunning(View(), st.View()) == st.Running()
    {}

    lemma ChildViewed(p: ChildProcess)
      requires Valid() && p in children
      ensures p.id < |children| && View().children[p.id] == p.View()
      ensures p.state in rows && p.state.id < |rows| && View().rows[p.state.id] == p.state.View()
      ensures |View().rows| == |rows| && |View().children| == |children| && View().clock == clock
    {}

    lemma EntryViewed(name: Name)
      requires Valid()
      ensures Registered(View(), name) <==> name in state
      ensures name in state ==> state[name] in rows
      ensures name in state ==>
                && View().state[name] == state[name].id && Entry(View(), name) == state[name].View()
                && IsRunning(View(), Entry(View(), name)) == state[name].Running()
    {
      if name in state { RowViewed(state[name]); }
    }

    // -------------------------------------------------------------- Restarter: queued restarts

    method ClearPending(name: Name)
      requires Valid()
      modifies rows
      ensures Valid() && View() == old(View()).(rows := Unmarked(old(View()).rows, old(View()).state, name))
    {
      if name !in state || state[name].restartPendingUntil.None? { return; }
      state[name].restartPendingUntil := None;
      OneRowWritten(state[name]);
    }

    method Cancel(name: Name)
      requires Valid()
      modifies `queue, rows
      ensures Valid() && View() == CancelRestart(old(View()), name)
    {
      hide View, Valid;
      ClearPending(name);
      DropTimer(name);
    }

    method DropTimer(name: Name)
      requires Valid()
      modifies `queue
      ensures Valid()
      ensures var s := old(View());
              View() == s.(queue := s.queue.(
                timers := if name in s.queue.pending then s.queue.timers - {s.queue.pending[name]} else s.queue.timers,
                pending := s.queue.pending - {name}))
    {
      if name !in queue.pending { return; }
      queue := queue.(timers := queue.timers - {queue.pending[name]}, pending := queue.pending - {name});
    }

    /** setTimeout, and the timer filed under the name. */
    method ArmRestart(svc: ServiceConfig, due: nat)
      requires Valid()
      modifies `queue
      ensures Valid() && View() == WithTimer(old(View()), svc, due)
    {
      queue := Queue(queue.pending[svc.name := queue.next], queue.timers[queue.next := RestartTimer(svc, due)],
                     queue.next + 1);
    }

    method AdvertiseRestart(st: StateObject, p: ChildProcess, due: nat)
      requires Valid() && p in children && p.state == st
      modifies st`restarts, st`restartPendingUntil, p`requeued
      ensures p.id < |View().children| && p.state.id < |View().rows|
      ensures Valid() && View() == WithMark(old(View()), p.id, due)
    {
      ChildViewed(p);
      st.restarts := st.restarts + 1;
      st.restartPendingUntil := Some(due);
      p.requeued := true;
      OneRowWritten(st);
      OneChildWritten(p);
    }

    /** `p` is the process whose exit brought this about. */
    method ScheduleAutoRestart(svc: ServiceConfig, st: StateObject, p: ChildProcess)
      requires Valid() && p in children && p.state == st && p.svc == svc
      modifies `queue, st, p
      ensures Valid() && View() == Supervision.ScheduleAutoRestart(old(View()), p.id)
    {
      hide View, Pow2;
      ChildViewed(p);
      if st.restarts >= MAX_RESTARTS { return; }
      ScheduleInOrder(View(), p.id);
      hide Supervision.ScheduleAutoRestart, WithTimer, WithMark;
      var delay := BACKOFF_BASE_MS * Pow2(st.restarts);
      AdvertiseRestart(st, p, clock + delay);
      ArmRestart(svc, clock + delay);
    }

    // -------------------------------------------------------------- Lifecycle: stopping one service

    method Signal(name: Name, kill: bool)
      requires Valid()
      modifies rows, children
      ensures Valid() && View() == SignalService(old(View()), name, kill)
    {
      EntryViewed(name);
      if name !in state { return; }
      var st := state[name];
      if !st.Running() || st.pid.None? { return; }
      st.intentionalStop := true;
      var p := st.proc;
      p.stopped := true;
      if kill { p.sigkill := true; } else { p.sigterm := true; }
      OneRowWritten(st);
      OneChildWritten(p);
    }

    method Stop(name: Name)
      requires Valid()
      modifies `queue, rows, children
      ensures Valid() && View() == StopService(old(View()), name)
    {
      Cancel(name);
      Signal(name, false);
    }

    /** The name leaves the registry; whoever captured its state object keeps it. */
    method Unregister(name: Name)
      requires Valid()
      modifies `state
      ensures Valid() && View() == old(View()).(state := old(View()).state - {name})
    {
      state := state - {name};
    }

    method CountRemoval(name: Name)
      requires Valid()
      modifies `tallies
      ensures Valid() && View() == CountedRemoval(old(View()), name)
    {
      var count := if name in tallies.removals then tallies.removals[name] else 0;
      tallies := tallies.(removals := tallies.removals[name := count + 1]);
    }

    method Remove(name: Name)
      requires Valid()
      modifies `queue, `tallies, `state, rows, children
      ensures Valid() && View() == RemoveService(old(View()), name)
    {
      EntryViewed(name);
      ghost var was := View();
      if name !in state { return; }
      RemoveInOrder(was, name);
      hide View, Valid, CountedRemoval, SignalService, CancelRestart, RemoveService, OnForgetHealth;
      CountRemoval(name);
      Signal(name, false);
      Unregister(name);
      Cancel(name);
      ForgetHealth(name);
    }

    /** HealthPoller.forget. */
    method ForgetHealth(name: Name)
      requires Valid()
      modifies `tallies
      ensures Valid() && View() == OnForgetHealth(old(View()), name)
    {
      tallies := tallies.(failures := tallies.failures - {name});
    }

    // -------------------------------------------------------------- Spawner: state objects and timers

    method ClearStartupTimer(name: Name, owner: Option<RowId>)
      requires Valid()
      modifies `windows
      ensures Valid() && View() == Supervision.ClearStartupTimer(old(View()), name, owner)
    {
      if name in windows.owner && (owner.None? || owner.value == windows.owner[name]) {
        windows := Windows(windows.owner - {name}, windows.due - {windows.owner[name]});
      }
    }

    method ScheduleStartupTimeout(svc: ServiceConfig, st: StateObject)
      requires Valid()
      modifies `windows
      ensures Valid() && View() == WithWindow(old(View()), svc, st.id)
    {
      if svc.suspended { return; }
      if svc.startupTimeoutMs <= 0 { return; }
      windows := Windows(windows.owner[svc.name := st.id], windows.due[st.id := clock + svc.startupTimeoutMs]);
    }

    /** A fresh state object is registered under the name. */
    method Register(name: Name, st: StateObject)
      requires Valid() && st !in rows && st.id == |rows| && st.proc == null
      modifies `rows, `state
      ensures Valid() && rows == old(rows) + [st] && View() == Install(old(View()), name, st.View())
    {
      rows := rows + [st];
      state := state[name := st];
      RowAdded(st);
    }

    lemma SizesViewed()
      requires Valid()
      ensures |View().children| == |children| && |View().rows| == |rows| && View().clock == clock
      ensures View().starts == starts && View().tallies == tallies && View().closing == closing
      ensures View().windows == windows && View().queue == queue && View().requests == requests && View().polls == polls
      ensures View().wakes == wakes && View().reports == reports
    {}

    /** What a new state object carries over from the registered one. */
    method Carried(name: Name) returns (restarts: nat, crashes: nat)
      requires Valid()
      ensures restarts == PreviousRestarts(View(), name) && crashes == PreviousCrashes(View(), name)
    {
      EntryViewed(name);
      restarts := if name in state then state[name].restarts else 0;
      crashes := if name in state then state[name].crashes else 0;
    }

    method RecordCrashedState(svc: ServiceConfig) returns (st: StateObject)
      requires Valid()
      modifies `rows, `state
      ensures Valid() && rows == old(rows) + [st] && fresh(st) && View() == RecordCrashed(old(View()), svc)
    {
      hide View;
      SizesViewed();
      var restarts, crashes := Carried(svc.name);
      st := new StateObject(|rows|, None, svc, Crashed, Down, restarts, crashes + 1, None, None);
      Register(svc.name, st);
    }

    /** A child process joins the state object that its handlers close over. */
    method Adopt(st: StateObject, proc: ChildProcess)
      requires Valid() && st in rows && st.proc == null
      requires proc !in children && proc.id == |children| && proc.state == st
      modifies `children, `procs, st`proc, st`pid
      ensures Valid() && children == old(children) + [proc]
      ensures st.id < |old(View()).rows| && View() == WithChild(old(View()), st.id, proc.View())
    {
      hide View, Valid;
      SizesViewed();
      RowViewed(st);
      Keep(proc);
      RowViewed(st);
      Attach(st, proc);
    }

    /** The process is one of ours, and alive. */
    method Keep(proc: ChildProcess)
      requires Valid() && proc !in children && proc.id == |children| && proc.state in rows
      modifies `children, `procs
      ensures Valid() && children == old(children) + [proc]
      ensures var s := old(View());
              View() == s.(children := s.children + [proc.View()], procs := s.procs + {|s.children|})
    {
      children := children + [proc];
      procs := procs + {proc};
      ChildAdded(proc);
    }

    method Attach(st: StateObject, proc: ChildProcess)
      requires Valid() && st in rows && proc in children && proc.state == st
      modifies st`proc, st`pid
      ensures st.id < |old(View()).rows|
      ensures Valid()
      ensures View() == SetRow(old(View()), st.id,
                old(View()).rows[st.id].(proc := Some(proc.id), pid := if proc.spawned then Some(proc.id) else None))
    {
      RowViewed(st);
      st.proc := proc;
      st.pid := if proc.spawned then Some(proc.id) else None;
      OneRowWritten(st);
    }

    method NewEntry(svc: ServiceConfig) returns (st: StateObject)
      requires Valid()
      modifies `rows, `state
      ensures Valid() && rows == old(rows) + [st] && fresh(st)
      ensures st.id == |old(rows)| && st.proc == null
      ensures View() == WithEntry(old(View()), svc)
    {
      SizesViewed();
      var restarts, crashes := Carried(svc.name);
      hide View;
      st := new StateObject(|rows|, Some(|children|), svc, Starting, Waiting, restarts, crashes, Some(clock), None);
      Register(svc.name, st);
    }

    /** The child and its state object, which know each other. */
    method Fork(svc: ServiceConfig, succeeds: bool) returns (st: StateObject, proc: ChildProcess)
      requires Valid()
      modifies `rows, `state, `children, `procs
      ensures Valid() && rows == old(rows) + [st] && fresh(st) && children == old(children) + [proc] && fresh(proc)
      ensures st.id == |old(rows)| && View() == WithProcess(old(View()), svc, succeeds)
    {
      SizesViewed();
      ProcessInOrder(View(), svc, succeeds);
      hide View, WithProcess, WithChild, WithEntry;
      st := NewEntry(svc);
      proc := new ChildProcess(|children|, svc, st, succeeds);
      Adopt(st, proc);
    }

    // -------------------------------------------------------------- Spawner: one start

    method Finish(t: TaskId, outcome: Outcome)
      requires Valid() && t < |starts.tasks|
      modifies `starts
      ensures t < |old(View()).starts.tasks|
      ensures Valid() && View() == WithOutcome(old(View()), t, outcome)
    {
      starts := Starts(starts.tasks[t := starts.tasks[t].(phase := Settled(outcome))],
                       starts.starting - {starts.tasks[t].svc.name});
    }

    /** The start settles, and with it the auto-restart that waited for it. */
    method SettleStart(t: TaskId, outcome: Outcome)
      requires Valid() && t < |starts.tasks|
      modifies `starts, rows
      ensures t < |old(View()).starts.tasks|
      ensures Valid() && View() == Settle(old(View()), t, outcome)
    {
      var task := starts.tasks[t];
      SettleInOrder(View(), t, outcome);
      hide Settle, WithOutcome, Unmarked;
      Finish(t, outcome);
      if task.auto { ClearPending(task.svc.name); }
    }

    method SpawnProcess(t: TaskId, succeeds: bool)
      requires Valid() && t < |starts.tasks|
      modifies `starts, `windows, `rows, `state, `children, `procs, rows
      ensures t < |old(View()).starts.tasks|
      ensures Valid() && Grown() && View() == Spawn(old(View()), t, succeeds)
    {
      hide View, Valid, Spawn, WithProcess, WithWindow, Settle;
      var svc := starts.tasks[t].svc;
      SizesViewed();
      SpawnInOrder(View(), t, succeeds);
      var p := |children|;
      var st, _ := Fork(svc, succeeds);
      ScheduleStartupTimeout(svc, st);
      SettleStart(t, Spawned(p));
    }

    /** startNow once the pre-build has passed. */
    method AfterBuild(t: TaskId, world: World)
      requires Valid() && t < |starts.tasks|
      modifies `starts, `windows, `rows, `state, `children, `procs, rows
      ensures t < |old(View()).starts.tasks|
      ensures Valid() && Grown() && View() == Supervision.AfterBuild(old(View()), t, world)
    {
      var task := starts.tasks[t];
      SizesViewed();
      hide View, Spawn, Settle, RecordCrashed;
      if !world.watchPathsExist {
        var _ := RecordCrashedState(task.svc);
        SettleStart(t, FailedBeforeStart);
        return;
      }
      if (if task.svc.name in tallies.removals then tallies.removals[task.svc.name] else 0) != task.generation {
        SettleStart(t, Removed);
        return;
      }
      if closing {
        SettleStart(t, Refused);
        return;
      }
      SpawnProcess(t, world.spawnSucceeds);
    }

    method SetPhase(t: TaskId, phase: StartPhase)
      requires Valid() && t < |starts.tasks|
      modifies `starts
      ensures t < |old(View()).starts.tasks|
      ensures Valid() && View() == WithPhase(old(View()), t, phase)
    {
      starts := starts.(tasks := starts.tasks[t := starts.tasks[t].(phase := phase)]);
    }

    method AfterPort(t: TaskId, world: World)
      requires Valid() && t < |starts.tasks|
      modifies `starts, `windows, `rows, `state, `children, `procs, rows
      ensures t < |old(View()).starts.tasks|
      ensures Valid() && Grown() && View() == Supervision.AfterPort(old(View()), t, world)
    {
      var task := starts.tasks[t];
      SizesViewed();
      hide View, Supervision.AfterBuild, Supervision.ClearStartupTimer, Settle;
      assert Supervision.ClearStartupTimer(View(), task.svc.name, None).starts == starts
          && Supervision.ClearStartupTimer(View(), task.svc.name, None).closing == closing by {
        ClearingKeeps(View(), task.svc.name);
      }
      ClearStartupTimer(task.svc.name, None);
      if !task.svc.hasPreBuild {
        AfterBuild(t, world);
        return;
      }
      if closing {
        SettleStart(t, Refused);
        return;
      }
      SetPhase(t, Building);
    }

    method PortTaken(t: TaskId)
      requires Valid() && t < |starts.tasks|
      modifies `starts, `windows, `rows, `state, rows
      ensures t < |old(View()).starts.tasks|
      ensures Valid() && Grown() && View() == Supervision.PortTaken(old(View()), t)
    {
      var svc := starts.tasks[t].svc;
      SizesViewed();
      ClearingKeeps(View(), svc.name);
      hide View, Supervision.ClearStartupTimer, RecordCrashed, Settle;
      ClearStartupTimer(svc.name, None);
      var _ := RecordCrashedState(svc);
      SettleStart(t, FailedBeforeStart);
    }

    method EnterStart(task: StartTask)
      requires Valid()
      modifies `starts
      ensures Valid() && View() == Enter(old(View()), task) && |starts.tasks| == |old(starts.tasks)| + 1
    {
      starts := Starts(starts.tasks + [task], starts.starting[task.svc.name := |starts.tasks|]);
    }

    /** The start in flight will now also clear the mark of an auto-restart. */
    method Join(t: TaskId)
      requires Valid() && t < |starts.tasks|
      modifies `starts
      ensures t < |old(View()).starts.tasks|
      ensures Valid() && View() == SetTask(old(View()), t, old(View()).starts.tasks[t].(auto := true))
    {
      starts := starts.(tasks := starts.tasks[t := starts.tasks[t].(auto := true)]);
    }

    /** startNow up to its first await. */
    method StartNow(t: TaskId, svc: ServiceConfig, world: World)
      requires Valid() && t < |starts.tasks|
      modifies `starts, `windows, `rows, `state, `children, `procs, rows
      ensures t < |old(View()).starts.tasks|
      ensures Valid() && Grown() && View() == NowStarted(old(View()), t, svc, world)
    {
      EntryViewed(svc.name);
      SizesViewed();
      hide View, Supervision.AfterPort, Settle;
      if closing {
        SettleStart(t, Refused);
        return;
      }
      if svc.name in state && state[svc.name].remote.Some? {
        SettleStart(t, Refused);
        return;
      }
      if !svc.isApi { AfterPort(t, world); }
    }

    /** Spawner.start; `auto` says that the restarter's timer called it. */
    method Start(svc: ServiceConfig, isRestart: bool, auto: bool, world: World)
      requires Valid()
      modifies `starts, `windows, `rows, `state, `children, `procs, rows
      ensures Valid() && Grown() && View() == Supervision.Start(old(View()), svc, isRestart, auto, world)
    {
      SizesViewed();
      hide View;
      if svc.name in starts.starting {
        var t := starts.starting[svc.name];
        if auto && t < |starts.tasks| { Join(t); }
        return;
      }
      StartInOrder(View(), svc, isRestart, auto, world);
      hide Enter, NowStarted, Supervision.Start;
      var t := |starts.tasks|;
      var generation := if svc.name in tallies.removals then tallies.removals[svc.name] else 0;
      EnterStart(StartTask(svc, isRestart, generation, auto, PortCheck));
      StartNow(t, svc, world);
    }

    method PortHeld(t: TaskId)
      requires Valid() && t < |starts.tasks|
      modifies `starts, `windows, `rows, `state, rows
      ensures t < |old(View()).starts.tasks|
      ensures Valid() && Grown() && View() == HeldPort(old(View()), t)
    {
      hide View, Valid, Settle, Supervision.PortTaken, WithPhase;
      var task := starts.tasks[t];
      SizesViewed();
      EntryViewed(task.svc.name);
      if task.svc.name in state {
        var st := state[task.svc.name];
        if st.Running() {
          if !st.intentionalStop {
            SettleStart(t, LeftAlone);
            return;
          }
          SetPhase(t, ExitWait(st.proc.id, clock + STOP_GRACE_MS));
          return;
        }
      }
      PortTaken(t);
    }

    method OnPortResult(t: TaskId, bindable: bool, world: World)
      requires Valid()
      modifies `starts, `windows, `rows, `state, `children, `procs, rows
      ensures Valid() && Grown() && View() == Supervision.OnPortResult(old(View()), t, bindable, world)
    {
      SizesViewed();
      if t >= |starts.tasks| || !(starts.tasks[t].phase.PortCheck? || starts.tasks[t].phase.PortRecheck?) { return; }
      var task := starts.tasks[t];
      hide View, Supervision.AfterPort, Settle, Supervision.PortTaken;
      if bindable || (task.phase.PortCheck? && task.isRestart) {
        AfterPort(t, world);
      } else if task.phase.PortCheck? {
        PortHeld(t);
      } else {
        PortTaken(t);
      }
    }

    method OnExitWaitOver(t: TaskId)
      requires Valid()
      modifies `starts
      ensures Valid() && View() == Supervision.OnExitWaitOver(old(View()), t)
    {
      SizesViewed();
      if t >= |starts.tasks| || !starts.tasks[t].phase.ExitWait? { return; }
      var phase := starts.tasks[t].phase;
      if phase.child < |children| { ChildViewed(children[phase.child]); }
      hide View;
      if (phase.child < |children| && children[phase.child].exited) || phase.deadline <= clock {
        SetPhase(t, PortRecheck);
      }
    }

    method OnBuildResult(t: TaskId, ok: bool, world: World)
      requires Valid()
      modifies `starts, `windows, `rows, `state, `children, `procs, rows
      ensures Valid() && Grown() && View() == Supervision.OnBuildResult(old(View()), t, ok, world)
    {
      SizesViewed();
      if t >= |starts.tasks| || !starts.tasks[t].phase.Building? { return; }
      var svc := starts.tasks[t].svc;
      hide View, Supervision.AfterBuild, Settle, RecordCrashed;
      if ok {
        AfterBuild(t, world);
        return;
      }
      var _ := RecordCrashedState(svc);
      SettleStart(t, FailedBeforeStart);
    }

    // -------------------------------------------------------------- a child's events

    /** What a segment displays on a state object. */
    method Display(st: StateObject, status: Status, health: Health)
      requires Valid() && st in rows
      modifies st`status, st`health
      ensures st.id < |old(View()).rows|
      ensures Valid()
              && View() == SetRow(old(View()), st.id, old(View()).rows[st.id].(status := status, health := health))
    {
      RowViewed(st);
      st.status, st.health := status, health;
      OneRowWritten(st);
    }

    /** wireStdio: one line of output. */
    method OnLine(proc: ChildProcess, matches: bool)
      requires Valid() && proc in children && !proc.exited
      modifies `windows, proc.state
      ensures Valid() && View() == Supervision.OnLine(old(View()), proc.id, matches)
    {
      var st := proc.state;
      ChildViewed(proc);
      hide View, Supervision.ClearStartupTimer;
      if !proc.svc.hasReadyPattern || st.health.Up? { return; }
      if matches {
        Display(st, if st.status.Starting? then Running else st.status, Up);
        ClearStartupTimer(proc.svc.name, Some(st.id));
      }
    }

    method DropProc(proc: ChildProcess)
      requires Valid() && proc in children
      modifies `procs, proc`exited
      ensures proc.id < |old(View()).children|
      ensures Valid() && View() == WithoutProc(old(View()), proc.id)
    {
      ChildViewed(proc);
      procs := procs - {proc};
      proc.exited := true;
      OneChildWritten(proc);
      assert ProcsView() == old(ProcsView()) - {proc.id};
    }

    method Crash(st: StateObject, proc: ChildProcess, intentionalStop: bool)
      requires Valid() && proc in children && proc.state == st
      modifies st`status, st`health, st`crashes, st`intentionalStop, proc`crashCounted
      ensures proc.id < |old(View()).children| && st.id < |old(View()).rows|
              && old(View()).children[proc.id].row == st.id
      ensures Valid() && View() == CountCrash(old(View()), proc.id, intentionalStop)
    {
      hide View, Valid;
      ChildViewed(proc);
      CrashInOrder(View(), proc.id, intentionalStop);
      MarkCrashed(st, intentionalStop);
      CountCrashed(proc);
    }

    method MarkCrashed(st: StateObject, intentionalStop: bool)
      requires Valid() && st in rows
      modifies st`status, st`health, st`crashes, st`intentionalStop
      ensures st.id < |old(View()).rows|
      ensures Valid() && View() == WithCrash(old(View()), st.id, intentionalStop)
    {
      RowViewed(st);
      st.status, st.health := Crashed, Down;
      st.crashes := st.crashes + 1;
      st.intentionalStop := intentionalStop;
      OneRowWritten(st);
    }

    method CountCrashed(proc: ChildProcess)
      requires Valid() && proc in children
      modifies proc`crashCounted
      ensures proc.id < |old(View()).children|
      ensures Valid()
      ensures View() == old(View()).(children :=
                old(View()).children[proc.id := old(View()).children[proc.id].(crashCounted := true)])
    {
      ChildViewed(proc);
      proc.crashCounted := true;
      OneChildWritten(proc);
    }

    method ExitGone(proc: ChildProcess)
      requires Valid() && proc in children
      modifies `procs, `windows, proc`exited
      ensures proc.id < |old(View()).children|
      ensures Valid() && View() == ChildGone(old(View()), proc.id)
    {
      ChildViewed(proc);
      ChildGoneInOrder(View(), proc.id);
      hide View, ChildGone, WithoutProc, Supervision.ClearStartupTimer;
      DropProc(proc);
      ClearStartupTimer(proc.svc.name, Some(proc.state.id));
    }

    /** The exit was asked for. */
    method Stopped(st: StateObject, announce: bool)
      requires Valid() && st in rows
      modifies st`status, st`health, st`intentionalStop
      ensures st.id < |old(View()).rows|
      ensures Valid() && View() == SetRow(old(View()), st.id,
                 if announce then old(View()).rows[st.id].(intentionalStop := false, status := Supervision.Stopped,
                                                           health := Down)
                 else old(View()).rows[st.id].(intentionalStop := false))
    {
      RowViewed(st);
      st.intentionalStop := false;
      if announce { st.status, st.health := Supervision.Stopped, Down; }
      OneRowWritten(st);
    }

    /** wireCloseHandler. */
    method OnClose(proc: ChildProcess, cleanExit: bool)
      requires Valid() && proc in children && !proc.exited
      modifies `procs, `windows, `queue, proc, proc.state
      ensures Valid() && View() == Supervision.OnClose(old(View()), proc.id, cleanExit)
    {
      var st := proc.state;
      ChildViewed(proc);
      EntryViewed(proc.svc.name);
      GoneKeeps(View(), proc.id);
      hide View, ChildGone, CountCrash, Supervision.ScheduleAutoRestart;
      ExitGone(proc);
      if !proc.spawned {
        Crash(st, proc, false);
        return;
      }
      if st.intentionalStop {
        Stopped(st, proc.svc.name in state && state[proc.svc.name] == st && st.proc == proc
                    && (st.status.Starting? || st.status.Running? || st.status.TimedOut?));
        return;
      }
      if cleanExit {
        Display(st, Supervision.Stopped, Down);
        return;
      }
      Crash(st, proc, st.intentionalStop);
      ScheduleAutoRestart(proc.svc, st, proc);
    }

    // -------------------------------------------------------------- timers

    method ForgetWindow(r: RowId, name: Name)
      requires Valid()
      modifies `windows
      ensures Valid() && View() == WithoutWindow(old(View()), r, name)
    {
      windows := Windows(if name in windows.owner && windows.owner[name] == r then windows.owner - {name}
                         else windows.owner,
                         windows.due - {r});
    }

    /** The startup window of a state object is over. */
    method OnStartupTimer(st: StateObject)
      requires Valid() && st in rows && st.id in windows.due && windows.due[st.id] <= clock
      modifies `windows, st
      ensures Valid() && View() == Supervision.OnStartupTimer(old(View()), st.id)
    {
      var name := st.svc.name;
      RowViewed(st);
      EntryViewed(name);
      SizesViewed();
      hide View;
      ForgetWindow(st.id, name);
      if name !in state || state[name] != st || st.health.Up? { return; }
      Display(st, TimedOut, Down);
    }

    method TakeTimer(timer: TimerId, name: Name)
      requires Valid()
      modifies `queue
      ensures Valid() && View() == WithoutTimer(old(View()), timer, name)
    {
      queue := queue.(timers := queue.timers - {timer}, pending := queue.pending - {name});
    }

    method OnRestartTimer(timer: TimerId, world: World)
      requires Valid() && timer in queue.timers && queue.timers[timer].due <= clock
      modifies `queue, `starts, `windows, `rows, `state, `children, `procs, rows
      ensures Valid() && Grown() && View() == Supervision.OnRestartTimer(old(View()), timer, world)
    {
      var svc := queue.timers[timer].svc;
      SizesViewed();
      hide View, Supervision.Start;
      TakeTimer(timer, svc.name);
      Start(svc, true, true, world);
    }

    // -------------------------------------------------------------- startService and Restarter.restart

    method SetRequest(q: nat, phase: RequestPhase)
      requires Valid() && q < |requests|
      modifies `requests
      ensures q < |old(View()).requests|
      ensures Valid() && View() == WithRequest(old(View()), q, phase)
    {
      requests := requests[q := requests[q].(phase := phase)];
    }

    method AddRequest(name: Name, r: RowId, phase: RequestPhase)
      requires Valid()
      modifies `requests
      ensures Valid() && View() == Asked(old(View()), name, r, phase) && |requests| == |old(requests)| + 1
    {
      requests := requests + [Request(name, r, phase)];
    }

    method ResetBudget(st: StateObject)
      requires Valid() && st in rows
      modifies st`restarts
      ensures st.id < |old(View()).rows|
      ensures Valid() && View() == WithBudget(old(View()), st.id)
    {
      RowViewed(st);
      st.restarts := 0;
      OneRowWritten(st);
    }

    /** startService once no stop is in flight. */
    method AfterDrain(q: nat)
      requires Valid() && q < |requests|
      modifies `requests, `queue, rows
      ensures q < |old(View()).requests|
      ensures Valid() && View() == Supervision.AfterDrain(old(View()), q)
    {
      var req := requests[q];
      SizesViewed();
      EntryViewed(req.name);
      if req.name in state && req.row < |rows| {
        DrainInOrder(View(), q);
        hide View, Supervision.AfterDrain, CancelRestart, WithBudget, WithRequest;
        Cancel(req.name);
        ResetBudget(rows[req.row]);
        SetRequest(q, Installing);
      } else {
        hide View;
        SetRequest(q, Handed);
      }
    }

    method OnStartService(name: Name)
      requires Valid()
      modifies `requests, `queue, rows
      ensures Valid() && View() == Supervision.OnStartService(old(View()), name)
    {
      EntryViewed(name);
      SizesViewed();
      if name !in state { return; }
      var st := state[name];
      RowViewed(st);
      hide View, Supervision.AfterDrain;
      if st.remote.Some? { return; }
      if st.Running() {
        if !st.intentionalStop { return; }
        AddRequest(name, st.id, Draining(st.proc.id, clock + STOP_GRACE_MS));
        return;
      }
      var q := |requests|;
      AddRequest(name, st.id, Installing);
      AfterDrain(q);
    }

    method OnDrainOver(q: nat)
      requires Valid()
      modifies `requests, `queue, rows
      ensures Valid() && View() == Supervision.OnDrainOver(old(View()), q)
    {
      SizesViewed();
      if q >= |requests| || !requests[q].phase.Draining? { return; }
      var phase := requests[q].phase;
      if phase.child < |children| { ChildViewed(children[phase.child]); }
      hide View, Supervision.AfterDrain;
      if phase.child < |children| && children[phase.child].exited {
        AfterDrain(q);
      } else if phase.deadline <= clock {
        SetRequest(q, Handed);
      }
    }

    /** A request reaches the spawner, unless the service left the registry meanwhile. */
    method HandOver(q: nat, isRestart: bool, world: World)
      requires Valid() && q < |requests|
      modifies `requests, `starts, `windows, `rows, `state, `children, `procs, rows
      ensures q < |old(View()).requests|
      ensures Valid() && Grown() && View() == Supervision.HandOver(old(View()), q, isRestart, world)
    {
      hide View, Supervision.Start;
      var req := requests[q];
      SizesViewed();
      EntryViewed(req.name);
      if req.row < |rows| { RowViewed(rows[req.row]); }
      SetRequest(q, Handed);
      if req.name in state && req.row < |rows| {
        Start(rows[req.row].svc, isRestart, false, world);
      }
    }

    method OnInstallDone(q: nat, world: World)
      requires Valid()
      modifies `requests, `starts, `windows, `rows, `state, `children, `procs, rows
      ensures Valid() && Grown() && View() == Supervision.OnInstallDone(old(View()), q, world)
    {
      SizesViewed();
      if q >= |requests| || !requests[q].phase.Installing? { return; }
      hide View, Supervision.HandOver;
      HandOver(q, false, world);
    }

    method OnRestartService(name: Name)
      requires Valid()
      modifies `requests, `queue, rows, children
      ensures Valid() && View() == Supervision.OnRestartService(old(View()), name)
    {
      hide View, Valid, StopService, WithBudget, Asked;
      EntryViewed(name);
      SizesViewed();
      if name !in state { return; }
      hide Supervision.OnRestartService;
      var st := state[name];
      RestartInOrder(View(), name);
      Stop(name);
      EntryViewed(name);
      ResetBudget(st);
      var delay := if st.Running() then RESTART_SETTLE_LIVE_MS else RESTART_SETTLE_DEAD_MS;
      AddRequest(name, st.id, Settling(clock + delay));
    }

    method OnRestartResume(q: nat, world: World)
      requires Valid()
      modifies `requests, `starts, `windows, `rows, `state, `children, `procs, rows
      ensures Valid() && Grown() && View() == Supervision.OnRestartResume(old(View()), q, world)
    {
      SizesViewed();
      if q >= |requests| || !requests[q].phase.Settling? || requests[q].phase.due > clock { return; }
      hide View, Supervision.HandOver;
      HandOver(q, true, world);
    }

    // -------------------------------------------------------------- shutting down

    /** Restarter.cancelAll, name by name. */
    method CancelEvery()
      requires Valid()
      modifies `queue, rows
      ensures Valid() && View() == CancelAll(old(View()))
    {
      hide View, Valid, CancelledSome, CancelAll, CancelRestart;
      ghost var was := View();
      SizesViewed();
      var left := queue.pending.Keys;
      ghost var all, done: set<Name> := left, {};
      CancelNone(was);
      CancelledAll(was);
      while left != {}
        invariant left + done == all && left !! done
        invariant Valid() && View() == CancelledSome(was, done)
        decreases |left|
      {
        var name :| name in left;
        CancelOneMore(was, done, name);
        Cancel(name);
        left, done := left - {name}, done + {name};
      }
      assert done == all;
    }

    /** Lifecycle.findStateByProc. */
    method FindStateByProc(proc: ChildProcess) returns (st: StateObject?)
      requires Valid()
      ensures st == null ==> forall n :: n in state ==> state[n].proc != proc
      ensures st != null ==> st.proc == proc && exists n :: n in state && state[n] == st
    {
      var left := state.Keys;
      while left != {}
        invariant left <= state.Keys
        invariant forall n :: n in state && n !in left ==> state[n].proc != proc
        decreases |left|
      {
        var name :| name in left;
        if state[name].proc == proc { return state[name]; }
        left := left - {name};
      }
      return null;
    }

    method MarkStopping(st: StateObject)
      requires Valid() && st in rows
      modifies st`intentionalStop
      ensures st.id < |old(View()).rows|
      ensures Valid() && View() == SetRow(old(View()), st.id, old(View()).rows[st.id].(intentionalStop := true))
    {
      RowViewed(st);
      st.intentionalStop := true;
      OneRowWritten(st);
    }

    method Terminate(proc: ChildProcess)
      requires Valid() && proc in children
      modifies proc`sigterm
      ensures proc.id < |old(View()).children|
      ensures var c := old(View()).children[proc.id];
              Valid() && View() == old(View()).(children :=
                old(View()).children[proc.id := if c.spawned then c.(sigterm := true) else c])
    {
      ChildViewed(proc);
      if proc.spawned { proc.sigterm := true; }
      OneChildWritten(proc);
    }

    /** A registered state object with this process is the one that the process closes over. */
    lemma OnlyItsOwn(proc: ChildProcess, r: RowId)
      requires Valid() && proc in children
      ensures Found(View(), {proc.id}, r) ==>
            r == proc.state.id && proc.state.proc == proc && exists n :: n in state && state[n] == proc.state
    {
      if Found(View(), {proc.id}, r) {
        assert rows[r].proc.id == proc.id && rows[r].proc == proc;
      }
    }

    lemma OwnerFound(proc: ChildProcess)
      requires Valid() && proc in children
      ensures forall r: RowId :: Found(View(), {proc.id}, r) ==> r == proc.state.id
      ensures (exists n :: n in state && state[n].proc == proc) <==> Found(View(), {proc.id}, proc.state.id)
      ensures forall n :: n in state && state[n].proc == proc ==> state[n] == proc.state
    {
      forall r: RowId ensures Found(View(), {proc.id}, r) ==> r == proc.state.id { OnlyItsOwn(proc, r); }
      OnlyItsOwn(proc, proc.state.id);
      forall n | n in state && state[n].proc == proc
        ensures state[n] == proc.state && Found(View(), {proc.id}, proc.state.id)
      {
        EntryViewed(n);
      }
    }

    /** The registered state object of the process, if there is one, says that its exit is intended. */
    method MarkOwner(proc: ChildProcess)
      requires Valid() && proc in children
      modifies rows
      ensures Valid() && View() == old(View()).(rows := SignalledSome(old(View()), {proc.id}).rows)
    {
      ghost var was := View();
      ChildViewed(proc);
      OwnerFound(proc);
      hide View;
      var st := FindStateByProc(proc);
      if st != null { MarkStopping(st); }
      assert View().rows == SignalledSome(was, {proc.id}).rows;
    }

    /** One process of the list that `cleanup` took. */
    method SignalOne(proc: ChildProcess)
      requires Valid() && proc in children
      modifies rows, proc`sigterm
      ensures Valid() && View() == SignalledSome(old(View()), {proc.id})
    {
      ghost var was := View();
      ChildViewed(proc);
      hide View;
      MarkOwner(proc);
      Terminate(proc);
      assert View().children == SignalledSome(was, {proc.id}).children;
    }

    lemma ProcsViewed()
      requires Valid()
      ensures View().procs == set c | c in procs :: c.id
      ensures forall c :: c in procs ==> c in children
      ensures procs == {} <==> View().procs == {}
    {
      if procs != {} {
        var c :| c in procs;
        assert c.id in View().procs;
      }
    }

    /** Every process that `cleanup` took, in whatever order. */
    method SignalList()
      requires Valid()
      modifies rows, children
      ensures Valid() && View() == SignalledSome(old(View()), old(View()).procs)
    {
      hide View, Valid, SignalledSome;
      ghost var was := View();
      ProcsViewed();
      var left := procs;
      ghost var done: set<ChildId> := {};
      SignalNone(was);
      while left != {}
        invariant left <= procs && forall c :: c in procs ==> c in children
        invariant done == set c | c in procs && c !in left :: c.id
        invariant Valid() && View() == SignalledSome(was, done)
        decreases |left|
      {
        var proc :| proc in left;
        SignalOneMore(was, done, proc.id);
        SignalOne(proc);
        left := left - {proc};
        done := done + {proc.id};
      }
      assert done == was.procs;
    }

    /** Lifecycle.cleanup up to its wait. */
    method SignalEvery(graceMs: nat)
      requires Valid()
      modifies `cleanups, rows, children
      ensures Valid() && View() == SignalAll(old(View()), graceMs)
    {
      ProcsViewed();
      SignalledEveryone(View(), graceMs);
      hide View, SignalAll;
      if procs == {} { return; }
      SignalList();
      RecordCleanup(graceMs);
    }

    method RecordCleanup(graceMs: nat)
      requires Valid()
      modifies `cleanups
      ensures Valid()
      ensures View() == old(View()).(cleanups := old(View()).cleanups
                                                 + [Cleanup(old(View()).procs, old(View()).clock + graceMs, false)])
    {
      cleanups := cleanups + [Cleanup(set c | c in procs :: c.id, clock + graceMs, false)];
    }

    /** Spawner.close. */
    method CloseForGood()
      requires Valid()
      modifies `closing
      ensures Valid() && View() == old(View()).(closing := true)
    {
      closing := true;
    }

    /** ProcessManager.cleanup. */
    method OnCleanup(graceMs: nat)
      requires Valid()
      modifies `closing, `queue, `cleanups, rows, children
      ensures Valid() && View() == Supervision.OnCleanup(old(View()), graceMs)
    {
      hide View, CancelAll, SignalAll;
      CloseForGood();
      CancelEvery();
      SignalEvery(graceMs);
    }

    method KillOne(p: ChildId)
      requires Valid()
      modifies children
      ensures Valid() && View() == KilledSome(old(View()), {p})
    {
      ghost var was := View();
      if p < |children| {
        var proc := children[p];
        ChildViewed(proc);
        if proc.spawned && !proc.exited {
          proc.sigkill := true;
          OneChildWritten(proc);
          assert View().children == KilledSome(was, {p}).children;
          return;
        }
      }
      assert was.children == KilledSome(was, {p}).children;
    }

    method RecordKill(k: nat)
      requires Valid() && k < |cleanups|
      modifies `cleanups
      ensures k < |old(View()).cleanups|
      ensures Valid()
              && View() == old(View()).(cleanups := old(View()).cleanups[k := old(View()).cleanups[k].(killed := true)])
    {
      cleanups := cleanups[k := cleanups[k].(killed := true)];
    }

    /** The grace period of a cleanup is over: SIGKILL for what it took and still lives. */
    method OnGraceOver(k: nat)
      requires Valid() && k < |cleanups| && !cleanups[k].killed && cleanups[k].deadline <= clock
      modifies `cleanups, children
      ensures Valid() && View() == Supervision.OnGraceOver(old(View()), k)
    {
      ghost var was := View();
      assert was.cleanups == cleanups && was.clock == clock;
      KilledEveryone(was, k);
      KillNone(was);
      var taken := cleanups[k].taken;
      var left := taken;
      hide View, KilledSome, Supervision.OnGraceOver;
      while left != {}
        invariant left <= taken
        invariant Valid() && View() == KilledSome(was, taken - left)
        decreases |left|
      {
        var p :| p in left;
        KillOneMore(was, taken - left, p);
        assert taken - (left - {p}) == taken - left + {p};
        KillOne(p);
        left := left - {p};
      }
      assert taken - left == taken;
      RecordKill(k);
    }

    // -------------------------------------------------------------- HealthPoller

    method AddPoll(name: Name, r: RowId)
      requires Valid()
      modifies `polls
      ensures Valid() && View() == old(View()).(polls := old(View()).polls + [Poll(name, r, true)])
    {
      polls := polls + [Poll(name, r, true)];
    }

    /** checkAll for one entry, up to its probe. */
    method OnPollBegin(name: Name)
      requires Valid()
      modifies `polls, rows
      ensures Valid() && View() == Supervision.OnPollBegin(old(View()), name)
    {
      EntryViewed(name);
      SizesViewed();
      hide View;
      if name !in state { return; }
      var st := state[name];
      if st.remote.Some? { return; }
      if !st.Running() || st.status.Idle? {
        Display(st, st.status, if st.status.Idle? then Asleep else Down);
        return;
      }
      if st.svc.startPeriodMs > 0 && st.startedAt.Some? && clock < st.startedAt.value + st.svc.startPeriodMs { return; }
      AddPoll(name, st.id);
    }

    method CountAnswer(k: nat, name: Name, counted: bool, ok: bool)
      requires Valid() && k < |polls|
      modifies `polls, `tallies
      ensures k < |old(View()).polls|
      ensures Valid()
      ensures var s := old(View());
              View() == s.(polls := s.polls[k := s.polls[k].(open := false)],
                           tallies := if counted then s.tallies.(failures := CountProbe(s, name, ok)) else s.tallies)
    {
      polls := polls[k := polls[k].(open := false)];
      if counted {
        if ok {
          tallies := tallies.(failures := tallies.failures - {name});
        } else {
          var count := (if name in tallies.failures then tallies.failures[name] else 0) + 1;
          tallies := tallies.(failures := tallies.failures[name := count]);
        }
      }
    }

    /** What the answer of a probe says about the entry. */
    method Judge(st: StateObject, ok: bool, count: nat)
      requires Valid() && st in rows
      modifies st`status, st`health
      ensures st.id < |old(View()).rows|
      ensures Valid() && View() == SetRow(old(View()), st.id, Probed(old(View()).rows[st.id], ok, count))
    {
      hide View, Valid;
      RowViewed(st);
      SizesViewed();
      assert View().rows[st.id := View().rows[st.id]] == View().rows;
      if ok {
        if !(st.svc.hasReadyPattern && !st.health.Up? && !st.status.TimedOut?) {
          var health := DeriveHealth(true, st.status);
          var status := if health.Up? && (st.status.Starting? || st.status.TimedOut?) then Running else st.status;
          Display(st, status, health);
        }
      } else if count >= st.svc.failureThreshold {
        Display(st, st.status, DeriveHealth(false, st.status));
      }
    }

    /** checkAll after its probe of one entry. */
    method OnPollResult(k: nat, ok: bool)
      requires Valid() && k < |polls| && polls[k].open
      modifies `polls, `tallies, rows
      ensures Valid() && View() == Supervision.OnPollResult(old(View()), k, ok)
    {
      hide View, Valid, Probed;
      var name, r := polls[k].name, polls[k].row;
      EntryViewed(name);
      SizesViewed();
      if name !in state || state[name].id != r {
        CountAnswer(k, name, false, ok);
        return;
      }
      var count := (if name in tallies.failures then tallies.failures[name] else 0) + 1;
      CountAnswer(k, name, true, ok);
      Judge(state[name], ok, count);
    }

    // -------------------------------------------------------------- writes from boot and from a switch

    method Tick(ms: nat)
      requires Valid()
      modifies `clock
      ensures Valid() && View() == OnTick(old(View()), ms)
    {
      clock := clock + ms;
    }

    method BootMarksRunning(name: Name)
      requires Valid()
      modifies rows
      ensures Valid() && View() == OnBootMarksRunning(old(View()), name)
    {
      EntryViewed(name);
      hide View;
      if name !in state { return; }
      Display(state[name], Running, state[name].health);
    }

    method RegisterLazy(svc: ServiceConfig)
      requires Valid()
      modifies `rows, `state
      ensures Valid() && Grown() && View() == OnRegisterLazy(old(View()), svc)
    {
      hide View;
      var st := new StateObject(|rows|, None, svc, Idle, Asleep, 0, 0, None, None);
      Register(svc.name, st);
    }

    method RegisterRemote(svc: ServiceConfig, env: string)
      requires Valid()
      modifies `rows, `state
      ensures Valid() && Grown() && View() == OnRegisterRemote(old(View()), svc, env)
    {
      SizesViewed();
      hide View;
      var st := new StateObject(|rows|, None, svc, Running, Waiting, 0, 0, Some(clock), Some(env));
      Register(svc.name, st);
    }

    method GoIdle(st: StateObject)
      requires Valid() && st in rows
      modifies st`status, st`health, st`startedAt
      ensures st.id < |old(View()).rows|
      ensures Valid()
      ensures View() == SetRow(old(View()), st.id,
                old(View()).rows[st.id].(status := Idle, health := Asleep, startedAt := None))
    {
      RowViewed(st);
      st.status, st.health, st.startedAt := Idle, Asleep, None;
      OneRowWritten(st);
    }

    /** onIdleStop of a lazy service. */
    method IdleStop(name: Name)
      requires Valid()
      modifies `queue, rows, children
      ensures Valid() && View() == OnIdleStop(old(View()), name)
    {
      EntryViewed(name);
      StopKeepsEntries(View(), name);
      hide View, StopService;
      if name !in state || state[name].remote.Some? { return; }
      var st := state[name];
      Stop(name);
      GoIdle(st);
    }

    /** What the end of an on-demand start, or a `--once` boot, writes into the entry. */
    method WakeUp(name: Name, reachable: bool, suspended: bool)
      requires Valid()
      modifies rows
      ensures Valid() && View() == Awake(old(View()), name, reachable, suspended)
    {
      EntryViewed(name);
      hide View;
      if name !in state { return; }
      if reachable { Display(state[name], Running, Up); }
      else if !suspended { Display(state[name], TimedOut, state[name].health); }
    }

    method AddWake(name: Name, suspended: bool)
      requires Valid()
      modifies `wakes
      ensures Valid() && View() == old(View()).(wakes := old(View()).wakes + [Wake(name, suspended, true)])
    {
      wakes := wakes + [Wake(name, suspended, true)];
    }

    /** onDemandStart up to its first wait. */
    method WakeBegin(svc: ServiceConfig)
      requires Valid()
      modifies `queue, `wakes, rows
      ensures Valid() && View() == OnWakeBegin(old(View()), svc)
    {
      EntryViewed(svc.name);
      CancelKeepsWakes(View(), svc.name);
      hide View, CancelRestart;
      var suspended := svc.suspended;
      if svc.name in state { suspended := state[svc.name].svc.suspended; }
      Cancel(svc.name);
      AddWake(svc.name, suspended);
    }

    method EndWake(w: nat)
      requires Valid() && w < |wakes| && wakes[w].open
      modifies `wakes
      ensures Valid() && View() == OnWakeGivesUp(old(View()), w)
    {
      wakes := wakes[w := wakes[w].(open := false)];
    }

    /** onDemandStart after its wait for the port. */
    method WakeSettles(w: nat, reachable: bool)
      requires Valid() && w < |wakes| && wakes[w].open
      modifies `wakes, rows
      ensures Valid() && View() == OnWakeSettles(old(View()), w, reachable)
    {
      var wake := wakes[w];
      SizesViewed();
      hide View, Awake;
      EndWake(w);
      WakeUp(wake.name, reachable, wake.suspended);
    }

    /** waitReady looks once more, and returns true or goes on waiting. */
    method OnceSettles(svc: ServiceConfig, reachable: bool)
      requires Valid()
      modifies `reports
      ensures Valid() && View() == OnOnceSettles(old(View()), svc, reachable)
    {
      EntryViewed(svc.name);
      var up, timedOut, row, cfg := false, false, None, svc;
      if svc.name in state {
        var st := state[svc.name];
        up, timedOut, row, cfg := st.health.Up?, st.status.TimedOut?, Some(st.id), st.svc;
      }
      if up || (reachable && (cfg.isApi || !cfg.hasReadyPattern || timedOut)) {
        reports := reports + [Report(svc.name, row, true)];
      }
    }

    /** The phase has settled: the service is reported ready. */
    method OnceReports(k: nat)
      requires Valid() && k < |reports| && reports[k].open
      modifies `reports, rows
      ensures Valid() && View() == OnOnceReports(old(View()), k)
    {
      var report := reports[k];
      SizesViewed();
      hide View, Awake;
      CloseReport(k);
      WakeUp(report.name, true, true);
    }

    method CloseReport(k: nat)
      requires Valid() && k < |reports|
      modifies `reports
      ensures k < |old(View()).reports|
      ensures Valid()
      ensures var s := old(View()); View() == s.(reports := s.reports[k := s.reports[k].(open := false)])
    {
      reports := reports[k := reports[k].(open := false)];
    }

    /** The probe of a remote proxy against its environment. */
    method RemoteProbe(name: Name, reachable: bool)
      requires Valid()
      modifies rows
      ensures Valid() && View() == OnRemoteProbe(old(View()), name, reachable)
    {
      EntryViewed(name);
      hide View;
      if name !in state || state[name].remote.None? { return; }
      Display(state[name], state[name].status, if reachable then Up else Down);
    }

    /** The state object stops describing its process. */
    method LetGo(st: StateObject, svc: ServiceConfig)
      requires Valid() && st in rows && svc.name == st.svc.name
      modifies st`svc, st`proc, st`pid
      ensures st.id < |old(View()).rows|
      ensures Valid()
              && View() == SetRow(old(View()), st.id, old(View()).rows[st.id].(svc := svc, proc := None, pid := None))
    {
      RowViewed(st);
      st.svc, st.proc, st.pid := svc, null, None;
      OneRowWritten(st);
    }

    method ServeRemotely(st: StateObject, env: string)
      requires Valid() && st in rows
      modifies st`status, st`health, st`startedAt, st`remote
      ensures st.id < |old(View()).rows|
      ensures Valid()
      ensures View() == SetRow(old(View()), st.id,
                 old(View()).rows[st.id].(status := Running, health := Waiting, startedAt := Some(old(View()).clock),
                                          remote := Some(env)))
    {
      RowViewed(st);
      st.status, st.health, st.startedAt, st.remote := Running, Waiting, Some(clock), Some(env);
      OneRowWritten(st);
    }

    /** toRemote, once the port is free: the state object is kept, its process is let go. */
    method RemoteCommit(st: StateObject, svc: ServiceConfig, env: string)
      requires Valid() && st in rows && svc.name == st.svc.name
      modifies st
      ensures Valid() && View() == OnRemoteCommit(old(View()), st.id, svc, env)
    {
      RowViewed(st);
      hide View;
      LetGo(st, svc);
      ServeRemotely(st, env);
    }

    /** toLocal, once the remote proxy has let the port go. */
    method LocalCommit(st: StateObject, svc: ServiceConfig)
      requires Valid() && st in rows && svc.name == st.svc.name
      modifies st
      ensures Valid() && View() == OnLocalCommit(old(View()), st.id, svc)
    {
      RowViewed(st);
      st.svc, st.status, st.health, st.startedAt, st.remote := svc, Supervision.Stopped, Down, None, None;
      OneRowWritten(st);
    }
  }
}
