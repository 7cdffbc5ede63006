/** What every step of the supervisor keeps: identities, the one-start-per-name table,
 *  the ownership of timers, and the fate of a stopped child. */
module SupervisionInvariants {
  import opened Options
  import opened Supervision

  /** A state object and the one child that was spawned with it know each other. */
  ghost predicate RowOk(rows: seq<ProcessState>, children: seq<Child>, r: int) {
    0 <= r < |rows| ==>
      var st := rows[r];
      && st.restarts <= MAX_RESTARTS
      && (st.owned.Some? ==> st.owned.value < |children| && children[st.owned.value].row == r)
      && (st.proc.Some? ==> st.proc == st.owned && (st.pid.Some? <==> children[st.proc.value].spawned))
      && (st.pid.Some? ==> st.proc.Some?)
  }

  /** A child that a stop or force-stop acted on is never counted as a crash and never queues
   *  a restart; while it lives, its state object says that its exit is intended. */
  ghost predicate ChildOk(rows: seq<ProcessState>, children: seq<Child>, procs: set<ChildId>, p: int) {
    && (p in procs <==> 0 <= p < |children| && !children[p].exited)
    && (0 <= p < |children| ==>
          var c := children[p];
          && c.row < |rows| && rows[c.row].owned == Some(p) && rows[c.row].svc.name == c.svc.name
          && (c.stopped ==> c.spawned && !c.crashCounted && !c.requeued)
          && (c.stopped && !c.exited ==> rows[c.row].intentionalStop)
          && (c.requeued ==> c.crashCounted && c.spawned)
          && (c.crashCounted ==> c.exited))
  }

  ghost predicate StateOk(rows: seq<ProcessState>, state: map<Name, RowId>, n: Name) {
    n in state ==> state[n] < |rows| && rows[state[n]].svc.name == n
  }

  /** Every start in flight is the one `starting` holds for its name. */
  ghost predicate TaskOk(starts: Starts, t: int) {
    0 <= t < |starts.tasks| && !starts.tasks[t].phase.Settled? ==>
      var n := starts.tasks[t].svc.name;
      n in starts.starting && starts.starting[n] == t
  }

  ghost predicate StartingOk(starts: Starts, n: Name) {
    n in starts.starting ==>
      var t := starts.starting[n];
      t < |starts.tasks| && !starts.tasks[t].phase.Settled? && starts.tasks[t].svc.name == n
  }

  /** A start past its port check has disarmed the startup timer of its name. */
  ghost predicate BuildingOk(tasks: seq<StartTask>, w: Windows, t: int) {
    0 <= t < |tasks| && tasks[t].phase.Building? ==> tasks[t].svc.name !in w.owner
  }

  /** An armed startup timer is the one the table holds for its owner's name. */
  ghost predicate DueOk(rows: seq<ProcessState>, w: Windows, r: int) {
    r in w.due ==> 0 <= r < |rows| && rows[r].svc.name in w.owner && w.owner[rows[r].svc.name] == r
  }

  ghost predicate OwnerOk(rows: seq<ProcessState>, w: Windows, n: Name) {
    n in w.owner ==> w.owner[n] in w.due && w.owner[n] < |rows| && rows[w.owner[n]].svc.name == n
  }

  ghost predicate PendingOk(queue: Queue, n: Name) {
    n in queue.pending ==> queue.pending[n] in queue.timers && queue.timers[queue.pending[n]].svc.name == n
  }

  ghost predicate TimerOk(queue: Queue, k: int) {
    k in queue.timers ==> k < queue.next
  }

  ghost predicate RequestOk(rows: seq<ProcessState>, requests: seq<Request>, q: int) {
    0 <= q < |requests| ==> requests[q].row < |rows| && rows[requests[q].row].svc.name == requests[q].name
  }

  ghost predicate PollOk(rows: seq<ProcessState>, polls: seq<Poll>, k: int) {
    0 <= k < |polls| ==> polls[k].row < |rows| && rows[polls[k].row].svc.name == polls[k].name
  }

  /** State objects and children. */
  ghost predicate Linked(s: Supervisor) {
    && (forall r :: RowOk(s.rows, s.children, r))
    && (forall p :: ChildOk(s.rows, s.children, s.procs, p))
  }

  /** Everything that refers to a state object by number. */
  ghost predicate Named(s: Supervisor) {
    && (forall n :: StateOk(s.rows, s.state, n))
    && (forall r :: DueOk(s.rows, s.windows, r))
    && (forall n :: OwnerOk(s.rows, s.windows, n))
    && (forall q :: RequestOk(s.rows, s.requests, q))
    && (forall k :: PollOk(s.rows, s.polls, k))
  }

  /** The starts in flight. */
  ghost predicate Exclusive(s: Supervisor) {
    && (forall t :: TaskOk(s.starts, t))
    && (forall n :: StartingOk(s.starts, n))
    && (forall t :: BuildingOk(s.starts.tasks, s.windows, t))
  }

  ghost predicate Queued(s: Supervisor) {
    && (forall n :: PendingOk(s.queue, n))
    && (forall k :: TimerOk(s.queue, k))
  }

  ghost predicate Inv(s: Supervisor) {
    Linked(s) && Named(s) && Exclusive(s) && Queued(s)
  }

  // ---------------------------------------------------------------- small updates

  /** Names of state objects never change, and state objects are never dropped. */
  ghost predicate NamesKept(a: seq<ProcessState>, b: seq<ProcessState>) {
    |a| <= |b| && forall r :: 0 <= r < |a| ==> a[r].svc.name == b[r].svc.name
  }

  lemma NamedKeeps(s: Supervisor, rows: seq<ProcessState>)
    requires Named(s) && NamesKept(s.rows, rows)
    ensures Named(s.(rows := rows))
  {
    forall n ensures StateOk(rows, s.state, n) { assert StateOk(s.rows, s.state, n); }
    forall r ensures DueOk(rows, s.windows, r) { assert DueOk(s.rows, s.windows, r); }
    forall n ensures OwnerOk(rows, s.windows, n) { assert OwnerOk(s.rows, s.windows, n); }
    forall q ensures RequestOk(rows, s.requests, q) { assert RequestOk(s.rows, s.requests, q); }
    forall k ensures PollOk(rows, s.polls, k) { assert PollOk(s.rows, s.polls, k); }
  }

  /** The same state object, as far as the invariant is concerned. */
  ghost predicate SameIdentity(a: ProcessState, b: ProcessState) {
    && a.svc.name == b.svc.name && a.owned == b.owned && a.proc == b.proc && a.pid == b.pid
    && (a.intentionalStop ==> b.intentionalStop) && b.restarts <= MAX_RESTARTS
  }

  lemma SetRowKeeps(s: Supervisor, r: RowId, st: ProcessState)
    requires Inv(s) && r < |s.rows| && SameIdentity(s.rows[r], st)
    ensures Inv(SetRow(s, r, st))
  {
    var rows := SetRow(s, r, st).rows;
    NamedKeeps(s, rows);
    forall x ensures RowOk(rows, s.children, x) { assert RowOk(s.rows, s.children, x); }
    forall x ensures ChildOk(rows, s.children, s.procs, x) { assert ChildOk(s.rows, s.children, s.procs, x); }
  }

  lemma UnmarkedKeeps(s: Supervisor, n: Name)
    requires Inv(s)
    ensures Inv(s.(rows := Unmarked(s.rows, s.state, n)))
  {
    if Registered(s, n) {
      assert RowOk(s.rows, s.children, s.state[n]);
      SetRowKeeps(s, s.state[n], Entry(s, n).(restartPendingUntil := None));
    }
  }

  lemma CancelRestartKeeps(s: Supervisor, n: Name)
    requires Inv(s)
    ensures Inv(CancelRestart(s, n))
  {
    UnmarkedKeeps(s, n);
    var s' := CancelRestart(s, n);
    assert PendingOk(s.queue, n);
    forall m ensures PendingOk(s'.queue, m) { assert PendingOk(s.queue, m); }
    forall k ensures TimerOk(s'.queue, k) { assert TimerOk(s.queue, k); }
  }

  lemma ClearStartupTimerKeeps(s: Supervisor, n: Name, owner: Option<RowId>)
    requires Inv(s)
    ensures Inv(ClearStartupTimer(s, n, owner))
    ensures owner.None? ==> n !in Disarmed(s.windows, n, owner).owner
  {
    var s' := ClearStartupTimer(s, n, owner);
    if HoldsTimer(s.windows, n, owner) {
      assert OwnerOk(s.rows, s.windows, n);
      forall r ensures DueOk(s'.rows, s'.windows, r) { assert DueOk(s.rows, s.windows, r); }
      forall m ensures OwnerOk(s'.rows, s'.windows, m) { assert OwnerOk(s.rows, s.windows, m); }
      forall t ensures BuildingOk(s'.starts.tasks, s'.windows, t) { assert BuildingOk(s.starts.tasks, s.windows, t); }
    }
  }

  lemma SignalServiceKeeps(s: Supervisor, n: Name, kill: bool)
    requires Inv(s)
    ensures Inv(SignalService(s, n, kill))
  {
    if Stoppable(s, n) {
      var s' := SignalService(s, n, kill);
      assert RowOk(s.rows, s.children, s.state[n]);
      assert ChildOk(s.rows, s.children, s.procs, Entry(s, n).proc.value);
      NamedKeeps(s, s'.rows);
      forall x ensures RowOk(s'.rows, s'.children, x) { assert RowOk(s.rows, s.children, x); }
      forall x ensures ChildOk(s'.rows, s'.children, s'.procs, x) { assert ChildOk(s.rows, s.children, s.procs, x); }
    }
  }

  lemma StopServiceKeeps(s: Supervisor, n: Name)
    requires Inv(s)
    ensures Inv(StopService(s, n))
  {
    CancelRestartKeeps(s, n);
    SignalServiceKeeps(CancelRestart(s, n), n, false);
  }

  lemma UnregisterKeeps(s: Supervisor, n: Name)
    requires Inv(s)
    ensures Inv(s.(state := s.state - {n}))
  {
    var s' := s.(state := s.state - {n});
    forall m ensures StateOk(s'.rows, s'.state, m) { assert StateOk(s.rows, s.state, m); }
  }

  /** Fields the invariant does not read. */
  lemma IrrelevantFields(s: Supervisor, tallies: Tallies, closing: bool, clock: nat)
    requires Inv(s)
    ensures Inv(s.(tallies := tallies, closing := closing, clock := clock))
  {}

  lemma RemoveServiceKeeps(s: Supervisor, n: Name)
    requires Inv(s)
    ensures Inv(RemoveService(s, n))
  {
    if Registered(s, n) {
      SignalServiceKeeps(s, n, false);
      var s1 := SignalService(s, n, false);
      UnregisterKeeps(s1, n);
      var s2 := s1.(state := s.state - {n});
      var tallies := Tallies(s.tallies.removals[n := Generation(s, n) + 1], s.tallies.failures - {n});
      IrrelevantFields(s2, tallies, s.closing, s.clock);
      CancelRestartKeeps(s2.(tallies := tallies), n);
    }
  }

  /** A fresh state object without a process may be registered at any time. */
  lemma InstallKeeps(s: Supervisor, n: Name, st: ProcessState)
    requires Inv(s) && st.svc.name == n && st.owned.None? && st.proc.None? && st.pid.None?
             && st.restarts <= MAX_RESTARTS
    ensures Inv(Install(s, n, st))
  {
    var s' := Install(s, n, st);
    NamedKeeps(s, s'.rows);
    forall m ensures StateOk(s'.rows, s'.state, m) { assert StateOk(s.rows, s.state, m); }
    forall x ensures RowOk(s'.rows, s'.children, x) { assert RowOk(s.rows, s.children, x); }
    forall x ensures ChildOk(s'.rows, s'.children, s'.procs, x) { assert ChildOk(s.rows, s.children, s.procs, x); }
  }

  lemma RestartsBounded(s: Supervisor, n: Name)
    requires Inv(s)
    ensures PreviousRestarts(s, n) <= MAX_RESTARTS
  {
    if Registered(s, n) { assert RowOk(s.rows, s.children, s.state[n]); }
  }

  lemma RecordCrashedKeeps(s: Supervisor, svc: ServiceConfig)
    requires Inv(s)
    ensures Inv(RecordCrashed(s, svc))
  {
    RestartsBounded(s, svc.name);
    InstallKeeps(s, svc.name, ProcessState(svc, None, None, None, Crashed, Down,
                         PreviousRestarts(s, svc.name), PreviousCrashes(s, svc.name) + 1,
                         None, false, None, None));
  }

  // ---------------------------------------------------------------- starting

  lemma SettleKeeps(s: Supervisor, t: TaskId, outcome: Outcome)
    requires Inv(s) && InFlight(s, t)
    ensures Inv(Settle(s, t, outcome))
  {
    var task := s.starts.tasks[t];
    var s1 := s.(starts := Starts(s.starts.tasks[t := task.(phase := Settled(outcome))],
                                  s.starts.starting - {task.svc.name}));
    forall x ensures TaskOk(s1.starts, x) { assert TaskOk(s.starts, x) && TaskOk(s.starts, t); }
    forall n ensures StartingOk(s1.starts, n) { assert StartingOk(s.starts, n); }
    forall x ensures BuildingOk(s1.starts.tasks, s1.windows, x) { assert BuildingOk(s.starts.tasks, s.windows, x); }
    assert TaskOk(s.starts, t);
    if task.auto { UnmarkedKeeps(s1, task.svc.name); }
  }

  lemma SetTaskKeeps(s: Supervisor, t: TaskId, task: StartTask)
    requires Inv(s) && InFlight(s, t) && !task.phase.Settled? && task.svc.name == s.starts.tasks[t].svc.name
    requires task.phase.Building? ==> task.svc.name !in s.windows.owner
    ensures Inv(SetTask(s, t, task))
  {
    var s1 := SetTask(s, t, task);
    forall x ensures TaskOk(s1.starts, x) { assert TaskOk(s.starts, x); }
    forall n ensures StartingOk(s1.starts, n) { assert StartingOk(s.starts, n); }
    forall x ensures BuildingOk(s1.starts.tasks, s1.windows, x) { assert BuildingOk(s.starts.tasks, s.windows, x); }
  }

  lemma ArmedKeeps(s: Supervisor, svc: ServiceConfig, r: RowId)
    requires Inv(s) && r < |s.rows| && s.rows[r].svc.name == svc.name && svc.name !in s.windows.owner
             && r !in s.windows.due
    requires forall t :: 0 <= t < |s.starts.tasks| && s.starts.tasks[t].svc.name == svc.name ==>
          !s.starts.tasks[t].phase.Building?
    ensures Inv(s.(windows := Armed(s.windows, svc, r, s.clock)))
  {
    var s1 := s.(windows := Armed(s.windows, svc, r, s.clock));
    if HasStartupWindow(svc) {
      forall x ensures DueOk(s1.rows, s1.windows, x) { assert DueOk(s.rows, s.windows, x); }
      forall n ensures OwnerOk(s1.rows, s1.windows, n) { assert OwnerOk(s.rows, s.windows, n); }
      forall t ensures BuildingOk(s1.starts.tasks, s1.windows, t) { assert BuildingOk(s.starts.tasks, s.windows, t); }
    }
  }

  /** The state right after the child exists and before its startup timer is armed. */
  function Forked(s: Supervisor, t: TaskId, succeeds: bool): Supervisor
    requires t < |s.starts.tasks|
  {
    var svc := s.starts.tasks[t].svc;
    var p, r := |s.children|, |s.rows|;
    Install(s, svc.name,
            ProcessState(svc, Some(p), Some(p), if succeeds then Some(p) else None, Starting, Waiting,
                         PreviousRestarts(s, svc.name), PreviousCrashes(s, svc.name),
                         Some(s.clock), false, None, None))
    .(children := s.children + [Child(svc, r, succeeds, false, false, false, false, false, false)],
      procs := s.procs + {p})
  }

  lemma ForkedKeeps(s: Supervisor, t: TaskId, succeeds: bool)
    requires Inv(s) && InFlight(s, t)
    ensures Inv(Forked(s, t, succeeds))
  {
    var s1 := Forked(s, t, succeeds);
    RestartsBounded(s, s.starts.tasks[t].svc.name);
    NamedKeeps(s, s1.rows);
    forall m ensures StateOk(s1.rows, s1.state, m) { assert StateOk(s.rows, s.state, m); }
    forall x ensures RowOk(s1.rows, s1.children, x) { assert RowOk(s.rows, s.children, x); }
    forall x ensures ChildOk(s1.rows, s1.children, s1.procs, x) { assert ChildOk(s.rows, s.children, s.procs, x); }
  }

  lemma SpawnKeeps(s: Supervisor, t: TaskId, succeeds: bool)
    requires Inv(s) && InFlight(s, t) && s.starts.tasks[t].svc.name !in s.windows.owner
    ensures Inv(Spawn(s, t, succeeds))
  {
    var svc, outcome := s.starts.tasks[t].svc, Spawned(|s.children|);
    var s1 := Forked(s, t, succeeds);
    ForkedKeeps(s, t, succeeds);
    SettleKeeps(s1, t, outcome);
    var s2 := Settle(s1, t, outcome);
    assert DueOk(s.rows, s.windows, |s.rows|);
    forall x | 0 <= x < |s2.starts.tasks| && s2.starts.tasks[x].svc.name == svc.name
      ensures !s2.starts.tasks[x].phase.Building?
    {
      assert TaskOk(s.starts, x) && TaskOk(s.starts, t);
    }
    ArmedKeeps(s2, svc, |s.rows|);
  }

  lemma AfterBuildKeeps(s: Supervisor, t: TaskId, world: World)
    requires Inv(s) && InFlight(s, t) && s.starts.tasks[t].svc.name !in s.windows.owner
    ensures Inv(AfterBuild(s, t, world))
  {
    var task := s.starts.tasks[t];
    if !world.watchPathsExist {
      RecordCrashedKeeps(s, task.svc);
      SettleKeeps(RecordCrashed(s, task.svc), t, FailedBeforeStart);
    } else if Generation(s, task.svc.name) != task.generation { SettleKeeps(s, t, Removed); }
    else if s.closing { SettleKeeps(s, t, Refused); }
    else { SpawnKeeps(s, t, world.spawnSucceeds); }
  }

  lemma AfterPortKeeps(s: Supervisor, t: TaskId, world: World)
    requires Inv(s) && InFlight(s, t)
    ensures Inv(AfterPort(s, t, world))
  {
    var task := s.starts.tasks[t];
    ClearStartupTimerKeeps(s, task.svc.name, None);
    var s1 := ClearStartupTimer(s, task.svc.name, None);
    if !task.svc.hasPreBuild { AfterBuildKeeps(s1, t, world); }
    else if s1.closing { SettleKeeps(s1, t, Refused); }
    else { SetTaskKeeps(s1, t, task.(phase := Building)); }
  }

  lemma PortTakenKeeps(s: Supervisor, t: TaskId)
    requires Inv(s) && InFlight(s, t)
    ensures Inv(PortTaken(s, t))
  {
    var svc := s.starts.tasks[t].svc;
    ClearStartupTimerKeeps(s, svc.name, None);
    var s1 := ClearStartupTimer(s, svc.name, None);
    RecordCrashedKeeps(s1, svc);
    SettleKeeps(RecordCrashed(s1, svc), t, FailedBeforeStart);
  }

  /** A start in its first phase may be entered for a name that has none in flight. */
  lemma EnterKeeps(s: Supervisor, task: StartTask)
    requires Inv(s) && task.svc.name !in s.starts.starting && task.phase.PortCheck?
    ensures Inv(Enter(s, task))
  {
    var s1 := Enter(s, task);
    forall x ensures TaskOk(s1.starts, x) { assert TaskOk(s.starts, x); }
    forall n ensures StartingOk(s1.starts, n) { assert StartingOk(s.starts, n); }
    forall x ensures BuildingOk(s1.starts.tasks, s1.windows, x) { assert BuildingOk(s.starts.tasks, s.windows, x); }
  }

  lemma StartKeeps(s: Supervisor, svc: ServiceConfig, isRestart: bool, auto: bool, world: World)
    requires Inv(s)
    ensures Inv(Start(s, svc, isRestart, auto, world))
  {
    if svc.name in s.starts.starting {
      assert StartingOk(s.starts, svc.name);
      var t := s.starts.starting[svc.name];
      assert BuildingOk(s.starts.tasks, s.windows, t);
      if auto { SetTaskKeeps(s, t, s.starts.tasks[t].(auto := true)); }
    } else {
      var task := StartTask(svc, isRestart, Generation(s, svc.name), auto, PortCheck);
      EnterKeeps(s, task);
      var s1 := Enter(s, task);
      if s.closing || (Registered(s, svc.name) && Entry(s, svc.name).remote.Some?) {
        SettleKeeps(s1, |s.starts.tasks|, Refused);
      }
      else if !svc.isApi { AfterPortKeeps(s1, |s.starts.tasks|, world); }
    }
  }

  lemma PortResultKeeps(s: Supervisor, t: TaskId, bindable: bool, world: World)
    requires Inv(s)
    ensures Inv(OnPortResult(s, t, bindable, world))
  {
    if InFlight(s, t) {
      var task := s.starts.tasks[t];
      if (task.phase.PortCheck? && (bindable || task.isRestart)) || (task.phase.PortRecheck? && bindable) {
        AfterPortKeeps(s, t, world);
      } else if task.phase.PortCheck? && Registered(s, task.svc.name) && IsRunning(s, Entry(s, task.svc.name)) {
        var st := Entry(s, task.svc.name);
        if !st.intentionalStop { SettleKeeps(s, t, LeftAlone); }
        else { SetTaskKeeps(s, t, task.(phase := ExitWait(st.proc.value, s.clock + STOP_GRACE_MS))); }
      } else if task.phase.PortCheck? || task.phase.PortRecheck? {
        PortTakenKeeps(s, t);
      }
    }
  }

  lemma ExitWaitKeeps(s: Supervisor, t: TaskId)
    requires Inv(s)
    ensures Inv(OnExitWaitOver(s, t))
  {
    if InFlight(s, t) { SetTaskKeeps(s, t, s.starts.tasks[t].(phase := PortRecheck)); }
  }

  lemma BuildResultKeeps(s: Supervisor, t: TaskId, ok: bool, world: World)
    requires Inv(s)
    ensures Inv(OnBuildResult(s, t, ok, world))
  {
    if InFlight(s, t) && s.starts.tasks[t].phase.Building? {
      assert BuildingOk(s.starts.tasks, s.windows, t);
      if ok { AfterBuildKeeps(s, t, world); }
      else {
        RecordCrashedKeeps(s, s.starts.tasks[t].svc);
        SettleKeeps(RecordCrashed(s, s.starts.tasks[t].svc), t, FailedBeforeStart);
      }
    }
  }

  // ---------------------------------------------------------------- a child's events

  lemma LineKeeps(s: Supervisor, p: ChildId, matches: bool)
    requires Inv(s)
    ensures Inv(OnLine(s, p, matches))
  {
    if p < |s.children| && s.children[p].row < |s.rows| {
      var c := s.children[p];
      var st := s.rows[c.row];
      var st' := st.(health := Up, status := if st.status.Starting? then Running else st.status);
      assert RowOk(s.rows, s.children, c.row);
      SetRowKeeps(s, c.row, st');
      ClearStartupTimerKeeps(SetRow(s, c.row, st'), c.svc.name, Some(c.row));
    }
  }

  lemma ChildGoneKeeps(s: Supervisor, p: ChildId)
    requires Inv(s) && p < |s.children|
    ensures Inv(ChildGone(s, p))
  {
    var c := s.children[p];
    var s1 := s.(procs := s.procs - {p}, children := s.children[p := c.(exited := true)]);
    forall x ensures RowOk(s1.rows, s1.children, x) { assert RowOk(s.rows, s.children, x); }
    forall x ensures ChildOk(s1.rows, s1.children, s1.procs, x) { assert ChildOk(s.rows, s.children, s.procs, x); }
    ClearStartupTimerKeeps(s1, c.svc.name, Some(c.row));
  }

  /** The state object of a child that has exited may be written freely, and the child judged. */
  lemma JudgeKeeps(s: Supervisor, p: ChildId, st: ProcessState, c: Child)
    requires Inv(s) && p < |s.children| && s.children[p].exited
    requires c == s.children[p] || (c == s.children[p].(crashCounted := true) && !s.children[p].stopped)
          || (c == s.children[p].(requeued := true) && c.crashCounted && c.spawned && !c.stopped)
    requires s.children[p].row < |s.rows|
    requires var was := s.rows[s.children[p].row];
             st.svc.name == was.svc.name && st.owned == was.owned && st.proc == was.proc && st.pid == was.pid
             && st.restarts <= MAX_RESTARTS
    ensures Inv(SetRow(s, s.children[p].row, st).(children := s.children[p := c]))
  {
    var s1 := SetRow(s, s.children[p].row, st).(children := s.children[p := c]);
    assert ChildOk(s.rows, s.children, s.procs, p);
    NamedKeeps(s, s1.rows);
    forall x ensures RowOk(s1.rows, s1.children, x) { assert RowOk(s.rows, s.children, x); }
    forall x ensures ChildOk(s1.rows, s1.children, s1.procs, x) { assert ChildOk(s.rows, s.children, s.procs, x); }
  }

  lemma ScheduleAutoRestartKeeps(s: Supervisor, p: ChildId)
    requires Inv(s) && p < |s.children| && s.children[p].row < |s.rows|
    requires s.children[p].exited && s.children[p].crashCounted && s.children[p].spawned && !s.children[p].stopped
    ensures Inv(ScheduleAutoRestart(s, p))
  {
    var c := s.children[p];
    var st := s.rows[c.row];
    if st.restarts < MAX_RESTARTS {
      var due := s.clock + BACKOFF_BASE_MS * Pow2(st.restarts);
      var st' := st.(restarts := st.restarts + 1, restartPendingUntil := Some(due));
      JudgeKeeps(s, p, st', c.(requeued := true));
      var s1 := SetRow(s, c.row, st').(children := s.children[p := c.(requeued := true)]);
      var s' := ScheduleAutoRestart(s, p);
      forall n ensures PendingOk(s'.queue, n) {
        assert PendingOk(s.queue, n);
        if n in s.queue.pending { assert TimerOk(s.queue, s.queue.pending[n]); }
      }
      forall k ensures TimerOk(s'.queue, k) { assert TimerOk(s.queue, k); }
    }
  }

  lemma CountCrashKeeps(s: Supervisor, p: ChildId, intentionalStop: bool)
    requires Inv(s) && p < |s.children| && s.children[p].exited && !s.children[p].stopped
             && s.children[p].row < |s.rows|
    ensures Inv(CountCrash(s, p, intentionalStop))
  {
    var st := s.rows[s.children[p].row];
    assert RowOk(s.rows, s.children, s.children[p].row);
    JudgeKeeps(s, p, st.(status := Crashed, health := Down, crashes := st.crashes + 1,
                         intentionalStop := intentionalStop),
               s.children[p].(crashCounted := true));
  }

  lemma RelabelKeeps(s: Supervisor, p: ChildId, status: Status, health: Health, intentionalStop: bool)
    requires Inv(s) && p < |s.children| && s.children[p].exited && s.children[p].row < |s.rows|
    ensures var r := s.children[p].row;
            Inv(SetRow(s, r, s.rows[r].(status := status, health := health, intentionalStop := intentionalStop)))
  {
    var r := s.children[p].row;
    assert RowOk(s.rows, s.children, r);
    assert s.children == s.children[p := s.children[p]];
    JudgeKeeps(s, p, s.rows[r].(status := status, health := health, intentionalStop := intentionalStop), s.children[p]);
  }

  lemma CloseKeeps(s: Supervisor, p: ChildId, cleanExit: bool)
    requires Inv(s)
    ensures Inv(OnClose(s, p, cleanExit))
  {
    if p < |s.children| && !s.children[p].exited && s.children[p].row < |s.rows| {
      var c := s.children[p];
      assert ChildOk(s.rows, s.children, s.procs, p);
      ChildGoneKeeps(s, p);
      var s1 := ChildGone(s, p);
      hide Inv, ChildGone, ScheduleAutoRestart;
      var st := s1.rows[c.row];
      if !c.spawned { CountCrashKeeps(s1, p, false); }
      else if st.intentionalStop {
        RelabelKeeps(s1, p, Stopped, Down, false);
        RelabelKeeps(s1, p, st.status, st.health, false);
      } else if cleanExit { RelabelKeeps(s1, p, Stopped, Down, false); }
      else {
        CountCrashKeeps(s1, p, false);
        ScheduleAutoRestartKeeps(CountCrash(s1, p, false), p);
      }
    }
  }

  // ---------------------------------------------------------------- timers

  lemma StartupTimerKeeps(s: Supervisor, r: RowId)
    requires Inv(s)
    ensures Inv(OnStartupTimer(s, r))
  {
    if StartupTimerDue(s, r) {
      var st := s.rows[r];
      assert DueOk(s.rows, s.windows, r);
      ClearStartupTimerKeeps(s, st.svc.name, Some(r));
      var s1 := ClearStartupTimer(s, st.svc.name, Some(r));
      assert RowOk(s.rows, s.children, r);
      SetRowKeeps(s1, r, st.(status := TimedOut, health := Down));
    }
  }

  lemma RestartTimerKeeps(s: Supervisor, timer: TimerId, world: World)
    requires Inv(s)
    ensures Inv(OnRestartTimer(s, timer, world))
  {
    if RestartTimerDue(s, timer) {
      var svc := s.queue.timers[timer].svc;
      var s1 := s.(queue := s.queue.(timers := s.queue.timers - {timer}, pending := s.queue.pending - {svc.name}));
      forall n ensures PendingOk(s1.queue, n) { assert PendingOk(s.queue, n); }
      forall k ensures TimerOk(s1.queue, k) { assert TimerOk(s.queue, k); }
      StartKeeps(s1, svc, true, true, world);
    }
  }

  // ---------------------------------------------------------------- explicit starts

  lemma AdvanceRequest(s: Supervisor, q: nat, phase: RequestPhase)
    requires Inv(s) && q < |s.requests|
    ensures Inv(s.(requests := s.requests[q := s.requests[q].(phase := phase)]))
  {
    var requests := s.requests[q := s.requests[q].(phase := phase)];
    forall x ensures RequestOk(s.rows, requests, x) { assert RequestOk(s.rows, s.requests, x); }
  }

  lemma AddRequest(s: Supervisor, n: Name, phase: RequestPhase)
    requires Inv(s) && Registered(s, n)
    ensures Inv(s.(requests := s.requests + [Request(n, s.state[n], phase)]))
  {
    var requests := s.requests + [Request(n, s.state[n], phase)];
    assert StateOk(s.rows, s.state, n);
    forall x ensures RequestOk(s.rows, requests, x) { assert RequestOk(s.rows, s.requests, x); }
  }

  lemma ResetBudgetKeeps(s: Supervisor, r: RowId)
    requires Inv(s) && r < |s.rows|
    ensures Inv(SetRow(s, r, s.rows[r].(restarts := 0)))
  {
    SetRowKeeps(s, r, s.rows[r].(restarts := 0));
  }

  lemma AfterDrainKeeps(s: Supervisor, q: nat)
    requires Inv(s) && q < |s.requests|
    ensures Inv(AfterDrain(s, q))
  {
    var req := s.requests[q];
    if Registered(s, req.name) && req.row < |s.rows| {
      CancelRestartKeeps(s, req.name);
      var s1 := CancelRestart(s, req.name);
      ResetBudgetKeeps(s1, req.row);
      AdvanceRequest(SetRow(s1, req.row, s1.rows[req.row].(restarts := 0)), q, Installing);
    } else {
      AdvanceRequest(s, q, Handed);
    }
  }

  lemma StartServiceKeeps(s: Supervisor, n: Name)
    requires Inv(s)
    ensures Inv(OnStartService(s, n))
  {
    if Registered(s, n) {
      var st := Entry(s, n);
      AddRequest(s, n, Installing);
      if IsRunning(s, st) { AddRequest(s, n, Draining(st.proc.value, s.clock + STOP_GRACE_MS)); }
      else { AfterDrainKeeps(s.(requests := s.requests + [Request(n, s.state[n], Installing)]), |s.requests|); }
    }
  }

  lemma DrainOverKeeps(s: Supervisor, q: nat)
    requires Inv(s)
    ensures Inv(OnDrainOver(s, q))
  {
    if q < |s.requests| {
      AfterDrainKeeps(s, q);
      AdvanceRequest(s, q, Handed);
    }
  }

  lemma HandOverKeeps(s: Supervisor, q: nat, isRestart: bool, world: World)
    requires Inv(s) && q < |s.requests|
    ensures Inv(HandOver(s, q, isRestart, world))
  {
    AdvanceRequest(s, q, Handed);
    var req := s.requests[q];
    if req.row < |s.rows| {
      StartKeeps(s.(requests := s.requests[q := req.(phase := Handed)]), s.rows[req.row].svc, isRestart, false, world);
    }
  }

  lemma RestartServiceKeeps(s: Supervisor, n: Name)
    requires Inv(s)
    ensures Inv(OnRestartService(s, n))
  {
    if Registered(s, n) {
      StopServiceKeeps(s, n);
      var s1 := StopService(s, n);
      var r := s1.state[n];
      ResetBudgetKeeps(s1, r);
      var delay := if IsRunning(s1, Entry(s1, n)) then RESTART_SETTLE_LIVE_MS else RESTART_SETTLE_DEAD_MS;
      AddRequest(SetRow(s1, r, s1.rows[r].(restarts := 0)), n, Settling(s1.clock + delay));
    }
  }

  lemma InstallDoneKeeps(s: Supervisor, q: nat, world: World)
    requires Inv(s)
    ensures Inv(OnInstallDone(s, q, world)) && Inv(OnRestartResume(s, q, world))
  {
    if q < |s.requests| {
      HandOverKeeps(s, q, false, world);
      HandOverKeeps(s, q, true, world);
    }
  }

  // ---------------------------------------------------------------- shutting down

  lemma CancelAllKeeps(s: Supervisor)
    requires Inv(s)
    ensures Inv(CancelAll(s))
  {
    var s1 := CancelAll(s);
    NamedKeeps(s, s1.rows);
    forall x ensures RowOk(s1.rows, s1.children, x) { assert RowOk(s.rows, s.children, x); }
    forall x ensures ChildOk(s1.rows, s1.children, s1.procs, x) { assert ChildOk(s.rows, s.children, s.procs, x); }
    forall n ensures PendingOk(s1.queue, n) {}
    forall k ensures TimerOk(s1.queue, k) { assert TimerOk(s.queue, k); }
  }

  lemma SignalAllKeeps(s: Supervisor, graceMs: nat)
    requires Inv(s)
    ensures Inv(SignalAll(s, graceMs))
  {
    var s1 := SignalAll(s, graceMs);
    if s.procs != {} {
      NamedKeeps(s, s1.rows);
      forall x ensures RowOk(s1.rows, s1.children, x) { assert RowOk(s.rows, s.children, x); }
      forall x ensures ChildOk(s1.rows, s1.children, s1.procs, x) { assert ChildOk(s.rows, s.children, s.procs, x); }
    }
  }

  lemma CleanupKeeps(s: Supervisor, graceMs: nat)
    requires Inv(s)
    ensures Inv(OnCleanup(s, graceMs))
  {
    IrrelevantFields(s, s.tallies, true, s.clock);
    CancelAllKeeps(s.(closing := true));
    SignalAllKeeps(CancelAll(s.(closing := true)), graceMs);
  }

  lemma GraceOverKeeps(s: Supervisor, k: nat)
    requires Inv(s)
    ensures Inv(OnGraceOver(s, k))
  {
    var s1 := OnGraceOver(s, k);
    if s1 != s {
      forall x ensures RowOk(s1.rows, s1.children, x) { assert RowOk(s.rows, s.children, x); }
      forall x ensures ChildOk(s1.rows, s1.children, s1.procs, x) { assert ChildOk(s.rows, s.children, s.procs, x); }
    }
  }

  // ---------------------------------------------------------------- health, and writes from outside

  lemma PollBeginKeeps(s: Supervisor, n: Name)
    requires Inv(s)
    ensures Inv(OnPollBegin(s, n))
  {
    if WrittenOff(s, n) {
      SetEntryKeeps(s, n, Entry(s, n).status, if Entry(s, n).status.Idle? then Asleep else Down, Entry(s, n).startedAt);
    } else if Probes(s, n) {
      assert StateOk(s.rows, s.state, n);
      var polls := s.polls + [Poll(n, s.state[n], true)];
      forall k ensures PollOk(s.rows, polls, k) { assert PollOk(s.rows, s.polls, k); }
    }
  }

  lemma PollResultKeeps(s: Supervisor, k: nat, ok: bool)
    requires Inv(s)
    ensures Inv(OnPollResult(s, k, ok))
  {
    if Polling(s, k) {
      var polls := s.polls[k := s.polls[k].(open := false)];
      forall x ensures PollOk(s.rows, polls, x) { assert PollOk(s.rows, s.polls, x); }
      var n, r := s.polls[k].name, s.polls[k].row;
      var s1 := s.(polls := polls, tallies := OnPollResult(s, k, ok).tallies);
      if StillProbed(s, k) {
        assert RowOk(s.rows, s.children, r);
        SetRowKeeps(s1, r, Probed(s.rows[r], ok, FailureCount(s, n) + 1));
      }
    }
  }

  /** A switch may detach the process from the state object. */
  lemma DetachKeeps(s: Supervisor, r: RowId, st: ProcessState)
    requires Inv(s) && r < |s.rows|
    requires st.svc.name == s.rows[r].svc.name && st.owned == s.rows[r].owned && st.restarts == s.rows[r].restarts
    requires st.intentionalStop == s.rows[r].intentionalStop && st.proc.None? && st.pid.None?
    ensures Inv(SetRow(s, r, st))
  {
    var s1 := SetRow(s, r, st);
    NamedKeeps(s, s1.rows);
    forall x ensures RowOk(s1.rows, s1.children, x) { assert RowOk(s.rows, s.children, x); }
    forall x ensures ChildOk(s1.rows, s1.children, s1.procs, x) { assert ChildOk(s.rows, s.children, s.procs, x); }
  }

  /** Rewriting what the registered state object displays. */
  lemma SetEntryKeeps(s: Supervisor, n: Name, status: Status, health: Health, startedAt: Option<nat>)
    requires Inv(s) && Registered(s, n)
    ensures Inv(SetRow(s, s.state[n], Entry(s, n).(status := status, health := health, startedAt := startedAt)))
  {
    assert RowOk(s.rows, s.children, s.state[n]);
    SetRowKeeps(s, s.state[n], Entry(s, n).(status := status, health := health, startedAt := startedAt));
  }

  lemma TrivialStepsKeep(s: Supervisor, n: Name, ms: nat)
    requires Inv(s)
    ensures Inv(OnTick(s, ms)) && Inv(OnForgetHealth(s, n)) && Inv(OnBootMarksRunning(s, n))
  {
    IrrelevantFields(s, s.tallies, s.closing, s.clock + ms);
    IrrelevantFields(s, s.tallies.(failures := s.tallies.failures - {n}), s.closing, s.clock);
    if Registered(s, n) { SetEntryKeeps(s, n, Running, Entry(s, n).health, Entry(s, n).startedAt); }
  }

  lemma RemoteProbeKeeps(s: Supervisor, n: Name, reachable: bool)
    requires Inv(s)
    ensures Inv(OnRemoteProbe(s, n, reachable))
  {
    if Registered(s, n) {
      SetEntryKeeps(s, n, Entry(s, n).status, if reachable then Up else Down, Entry(s, n).startedAt);
    }
  }

  lemma IdleStopKeeps(s: Supervisor, n: Name)
    requires Inv(s)
    ensures Inv(OnIdleStop(s, n))
  {
    if Registered(s, n) {
      StopServiceKeeps(s, n);
      SetEntryKeeps(StopService(s, n), n, Idle, Asleep, None);
    }
  }

  lemma AwakeKeeps(s: Supervisor, n: Name, reachable: bool, suspended: bool)
    requires Inv(s)
    ensures Inv(Awake(s, n, reachable, suspended))
  {
    if Registered(s, n) {
      if reachable { SetEntryKeeps(s, n, Running, Up, Entry(s, n).startedAt); }
      else { SetEntryKeeps(s, n, TimedOut, Entry(s, n).health, Entry(s, n).startedAt); }
    }
  }

  lemma PromisesUnread(s: Supervisor, wakes: seq<Wake>, reports: seq<Report>)
    requires Inv(s)
    ensures Inv(s.(wakes := wakes, reports := reports))
  {}

  lemma WrittenKeeps(s: Supervisor, e: Event)
    requires Inv(s)
    ensures Inv(Written(s, e))
  {
    hide Inv, CancelRestart, Awake;
    if e.WakeBegin? { CancelRestartKeeps(s, e.svc.name); }
    if e.WakeSettles? && Waking(s, e.wake) {
      AwakeKeeps(s, s.wakes[e.wake].name, e.reachable, s.wakes[e.wake].suspended);
    }
    if e.OnceReports? && Reporting(s, e.report) { AwakeKeeps(s, s.reports[e.report].name, true, true); }
  }

  lemma PromiseKeeps(s: Supervisor, e: Event)
    requires Inv(s) && Promises(e)
    ensures Inv(Step(s, e))
  {
    hide Inv, Step, Written;
    PromisesAre(s, e);
    WrittenKeeps(s, e);
    PromisesUnread(Written(s, e), Step(s, e).wakes, Step(s, e).reports);
  }

  lemma RegistrationsKeep(s: Supervisor, svc: ServiceConfig, env: string)
    requires Inv(s)
    ensures Inv(OnRegisterLazy(s, svc)) && Inv(OnRegisterRemote(s, svc, env))
  {
    InstallKeeps(s, svc.name, ProcessState(svc, None, None, None, Idle, Asleep, 0, 0, None, false, None, None));
    InstallKeeps(s, svc.name, ProcessState(svc, None, None, None, Running, Waiting, 0, 0, Some(s.clock), false, None,
                                           Some(env)));
  }

  lemma CommitsKeep(s: Supervisor, r: RowId, svc: ServiceConfig, env: string)
    requires Inv(s)
    ensures Inv(OnRemoteCommit(s, r, svc, env)) && Inv(OnLocalCommit(s, r, svc))
  {
    if r < |s.rows| && svc.name == s.rows[r].svc.name {
      assert RowOk(s.rows, s.children, r);
      DetachKeeps(s, r, s.rows[r].(svc := svc, proc := None, pid := None, status := Running, health := Waiting,
                                   startedAt := Some(s.clock), remote := Some(env)));
      SetRowKeeps(s, r, s.rows[r].(svc := svc, status := Stopped, health := Down, startedAt := None, remote := None));
    }
  }

  // ---------------------------------------------------------------- runs

  /** Every atomic segment keeps the invariant. */
  lemma StepKeeps(s: Supervisor, e: Event)
    requires Inv(s)
    ensures Inv(Step(s, e))
  {
    hide *;
    StepIs(s, e);
    PromiseEvents(e);
    match e
    case Tick(ms) => TrivialStepsKeep(s, "", ms);
    case StartCall(svc, isRestart, world) => StartKeeps(s, svc, isRestart, false, world);
    case PortResult(t, bindable, world) => PortResultKeeps(s, t, bindable, world);
    case ExitWaitOver(t) => ExitWaitKeeps(s, t);
    case BuildResult(t, ok, world) => BuildResultKeeps(s, t, ok, world);
    case Line(p, matches) => LineKeeps(s, p, matches);
    case Close(p, cleanExit) => CloseKeeps(s, p, cleanExit);
    case StartupTimerFires(r) => StartupTimerKeeps(s, r);
    case RestartTimerFires(timer, world) => RestartTimerKeeps(s, timer, world);
    case StopCall(n) => StopServiceKeeps(s, n);
    case ForceStopCall(n) => SignalServiceKeeps(s, n, true);
    case CancelCall(n) => CancelRestartKeeps(s, n);
    case RemoveCall(n) => RemoveServiceKeeps(s, n);
    case StartServiceCall(n) => StartServiceKeeps(s, n);
    case DrainOver(q) => DrainOverKeeps(s, q);
    case InstallDone(q, world) => InstallDoneKeeps(s, q, world);
    case RestartServiceCall(n) => RestartServiceKeeps(s, n);
    case RestartResume(q, world) => InstallDoneKeeps(s, q, world);
    case CleanupCall(graceMs) => CleanupKeeps(s, graceMs);
    case GraceOver(k) => GraceOverKeeps(s, k);
    case PollBegin(n) => PollBeginKeeps(s, n);
    case PollResult(k, ok) => PollResultKeeps(s, k, ok);
    case ForgetHealthCall(n) => TrivialStepsKeep(s, n, 0);
    case BootMarksRunning(n) => TrivialStepsKeep(s, n, 0);
    case RegisterLazyCall(svc) => RegistrationsKeep(s, svc, "");
    case IdleStopCall(n) => IdleStopKeeps(s, n);
    case WakeBegin(svc) => PromiseKeeps(s, e);
    case WakeSettles(w, reachable) => PromiseKeeps(s, e);
    case WakeGivesUp(w) => PromiseKeeps(s, e);
    case RegisterRemoteCall(svc, env) => RegistrationsKeep(s, svc, env);
    case RemoteCommit(r, svc, env) => CommitsKeep(s, r, svc, env);
    case LocalCommit(r, svc) => CommitsKeep(s, r, svc, "");
    case RemoteProbe(n, reachable) => RemoteProbeKeeps(s, n, reachable);
    case OnceSettles(svc, reachable) => PromiseKeeps(s, e);
    case OnceReports(k) => PromiseKeeps(s, e);
  }

  lemma {:induction false} RunKeeps(s: Supervisor, events: seq<Event>)
    requires Inv(s)
    ensures Inv(Run(s, events))
    decreases |events|
  {
    if events != [] {
      StepKeeps(s, events[0]);
      RunKeeps(Step(s, events[0]), events[1..]);
    }
  }

  /** Every state a run can reach satisfies the invariant. */
  lemma ReachableInv(s: Supervisor, events: seq<Event>)
    requires Initial(s)
    ensures Inv(Run(s, events))
  {
    assert Inv(s);
    RunKeeps(s, events);
  }
}
