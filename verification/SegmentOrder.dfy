/** The segments of the step machine taken apart into the writes they are made of, in the order in
 *  which the program makes them. */
module SegmentOrder {
  import opened Options
  import opened Supervision

  ghost function CountedRemoval(s: Supervisor, n: Name): Supervisor {
    s.(tallies := s.tallies.(removals := s.tallies.removals[n := Generation(s, n) + 1]))
  }

  /** A removal, in the order in which its parts are done. */
  lemma RemoveInOrder(s: Supervisor, n: Name)
    requires Registered(s, n)
    ensures var signalled := SignalService(CountedRemoval(s, n), n, false);
            var cancelled := CancelRestart(signalled.(state := signalled.state - {n}), n);
            RemoveService(s, n) == OnForgetHealth(cancelled, n)
  {}

  ghost function WithTimer(s: Supervisor, svc: ServiceConfig, due: nat): Supervisor {
    s.(queue := Queue(s.queue.pending[svc.name := s.queue.next], s.queue.timers[s.queue.next := RestartTimer(svc, due)],
                      s.queue.next + 1))
  }

  /** Restart number `restarts + 1` is taken from the budget of `p`'s state object, and announced. */
  ghost function WithMark(s: Supervisor, p: ChildId, due: nat): Supervisor
    requires p < |s.children| && s.children[p].row < |s.rows|
  {
    var st := s.rows[s.children[p].row];
    s.(rows := s.rows[s.children[p].row := st.(restarts := st.restarts + 1, restartPendingUntil := Some(due))],
       children := s.children[p := s.children[p].(requeued := true)])
  }

  /** A queued restart, in the order in which its parts are done. */
  lemma ScheduleInOrder(s: Supervisor, p: ChildId)
    requires p < |s.children| && s.children[p].row < |s.rows| && s.rows[s.children[p].row].restarts < MAX_RESTARTS
    ensures var due := s.clock + BACKOFF_BASE_MS * Pow2(s.rows[s.children[p].row].restarts);
            ScheduleAutoRestart(s, p) == WithTimer(WithMark(s, p, due), s.children[p].svc, due)
  {}

  /** The child exists and its state object is registered. */
  ghost function WithProcess(s: Supervisor, svc: ServiceConfig, succeeds: bool): Supervisor {
    var p, r := |s.children|, |s.rows|;
    Install(s, svc.name,
            ProcessState(svc, Some(p), Some(p), if succeeds then Some(p) else None, Starting, Waiting,
                         PreviousRestarts(s, svc.name), PreviousCrashes(s, svc.name),
                         Some(s.clock), false, None, None))
    .(children := s.children + [Child(svc, r, succeeds, false, false, false, false, false, false)],
      procs := s.procs + {p})
  }

  /** A new child joins the state object `r` that it was made for. */
  ghost function WithChild(s: Supervisor, r: RowId, c: Child): Supervisor
    requires r < |s.rows|
  {
    var p := |s.children|;
    s.(rows := s.rows[r := s.rows[r].(proc := Some(p), pid := if c.spawned then Some(p) else None)],
       children := s.children + [c], procs := s.procs + {p})
  }

  /** The state object of a process about to exist. */
  ghost function WithEntry(s: Supervisor, svc: ServiceConfig): Supervisor {
    Install(s, svc.name,
            ProcessState(svc, Some(|s.children|), None, None, Starting, Waiting,
                         PreviousRestarts(s, svc.name), PreviousCrashes(s, svc.name), Some(s.clock), false, None, None))
  }

  lemma ProcessInOrder(s: Supervisor, svc: ServiceConfig, succeeds: bool)
    ensures var r := |s.rows|;
            var c := Child(svc, r, succeeds, false, false, false, false, false, false);
            r < |WithEntry(s, svc).rows| && WithProcess(s, svc, succeeds) == WithChild(WithEntry(s, svc), r, c)
  {}

  ghost function WithWindow(s: Supervisor, svc: ServiceConfig, r: RowId): Supervisor {
    s.(windows := Armed(s.windows, svc, r, s.clock))
  }

  lemma SpawnInOrder(s: Supervisor, t: TaskId, succeeds: bool)
    requires t < |s.starts.tasks|
    ensures var svc := s.starts.tasks[t].svc;
            var x := WithWindow(WithProcess(s, svc, succeeds), svc, |s.rows|);
            t < |x.starts.tasks| && Spawn(s, t, succeeds) == Settle(x, t, Spawned(|s.children|))
  {}

  ghost function WithPhase(s: Supervisor, t: TaskId, phase: StartPhase): Supervisor
    requires t < |s.starts.tasks|
  {
    SetTask(s, t, s.starts.tasks[t].(phase := phase))
  }

  /** A start is no longer in flight. */
  ghost function WithOutcome(s: Supervisor, t: TaskId, outcome: Outcome): Supervisor
    requires t < |s.starts.tasks|
  {
    s.(starts := Starts(s.starts.tasks[t := s.starts.tasks[t].(phase := Settled(outcome))],
                        s.starts.starting - {s.starts.tasks[t].svc.name}))
  }

  lemma SettleInOrder(s: Supervisor, t: TaskId, outcome: Outcome)
    requires t < |s.starts.tasks|
    ensures var x := WithOutcome(s, t, outcome);
            Settle(s, t, outcome)
            == if s.starts.tasks[t].auto then x.(rows := Unmarked(x.rows, x.state, s.starts.tasks[t].svc.name)) else x
  {}

  /** The child has exited and left `procs`. */
  ghost function WithoutProc(s: Supervisor, p: ChildId): Supervisor
    requires p < |s.children|
  {
    s.(procs := s.procs - {p}, children := s.children[p := s.children[p].(exited := true)])
  }

  lemma ChildGoneInOrder(s: Supervisor, p: ChildId)
    requires p < |s.children|
    ensures ChildGone(s, p) == ClearStartupTimer(WithoutProc(s, p), s.children[p].svc.name, Some(s.children[p].row))
  {}

  lemma GoneKeeps(s: Supervisor, p: ChildId)
    requires p < |s.children|
    ensures var x := ChildGone(s, p);
            x.rows == s.rows && x.state == s.state && x.children == s.children[p := s.children[p].(exited := true)]
  {}

  ghost function WithoutWindow(s: Supervisor, r: RowId, n: Name): Supervisor {
    s.(windows := Windows(if n in s.windows.owner && s.windows.owner[n] == r then s.windows.owner - {n}
                          else s.windows.owner,
                          s.windows.due - {r}))
  }

  ghost function WithoutTimer(s: Supervisor, timer: TimerId, n: Name): Supervisor {
    s.(queue := s.queue.(timers := s.queue.timers - {timer}, pending := s.queue.pending - {n}))
  }

  ghost function WithRequest(s: Supervisor, q: nat, phase: RequestPhase): Supervisor
    requires q < |s.requests|
  {
    s.(requests := s.requests[q := s.requests[q].(phase := phase)])
  }

  ghost function WithBudget(s: Supervisor, r: RowId): Supervisor
    requires r < |s.rows|
  {
    SetRow(s, r, s.rows[r].(restarts := 0))
  }

  ghost function Asked(s: Supervisor, n: Name, r: RowId, phase: RequestPhase): Supervisor {
    s.(requests := s.requests + [Request(n, r, phase)])
  }

  lemma DrainInOrder(s: Supervisor, q: nat)
    requires q < |s.requests|
    requires Registered(s, s.requests[q].name) && s.requests[q].row < |s.rows|
    ensures var x := CancelRestart(s, s.requests[q].name);
            s.requests[q].row < |x.rows| && x.requests == s.requests && |x.rows| == |s.rows|
            && AfterDrain(s, q) == WithRequest(WithBudget(x, s.requests[q].row), q, Installing)
  {}

  lemma RestartInOrder(s: Supervisor, n: Name)
    requires Registered(s, n)
    ensures var x := StopService(s, n);
            && x.state == s.state && x.requests == s.requests && x.clock == s.clock && |x.rows| == |s.rows|
              && Registered(x, n)
            && var delay := if IsRunning(x, Entry(x, n)) then RESTART_SETTLE_LIVE_MS else RESTART_SETTLE_DEAD_MS;
               OnRestartService(s, n) == Asked(WithBudget(x, s.state[n]), n, s.state[n], Settling(s.clock + delay))
  {}

  /** The port of a fresh start is taken: by our own process, by one of ours that is stopping, or by someone else. */
  ghost function HeldPort(s: Supervisor, t: TaskId): Supervisor
    requires t < |s.starts.tasks|
  {
    var task := s.starts.tasks[t];
    if Registered(s, task.svc.name) && IsRunning(s, Entry(s, task.svc.name)) then
      var st := Entry(s, task.svc.name);
      if !st.intentionalStop then Settle(s, t, LeftAlone)
      else WithPhase(s, t, ExitWait(st.proc.value, s.clock + STOP_GRACE_MS))
    else PortTaken(s, t)
  }

  // ---------------------------------------------------------------- the loops of a shutdown, part way

  predicate MarkedBy(s: Supervisor, done: set<Name>, r: RowId) {
    exists n :: n in done && n in s.state && s.state[n] == r
  }

  /** The queued restarts of the names in `done` have been cancelled. */
  ghost function CancelledSome(s: Supervisor, done: set<Name>): Supervisor
    requires done <= s.queue.pending.Keys
  {
    s.(rows := seq(|s.rows|, r requires 0 <= r < |s.rows| =>
                   if MarkedBy(s, done, r) then s.rows[r].(restartPendingUntil := None) else s.rows[r]),
       queue := s.queue.(timers := s.queue.timers - (set n | n in done :: s.queue.pending[n]),
                         pending := s.queue.pending - done))
  }

  lemma CancelNone(s: Supervisor)
    ensures CancelledSome(s, {}) == s
  {
    assert CancelledSome(s, {}).rows == s.rows;
  }

  lemma CancelOneMore(s: Supervisor, done: set<Name>, n: Name)
    requires done <= s.queue.pending.Keys && n in s.queue.pending && n !in done
    ensures CancelRestart(CancelledSome(s, done), n) == CancelledSome(s, done + {n})
  {
    var x, y := CancelRestart(CancelledSome(s, done), n), CancelledSome(s, done + {n});
    forall r: nat | r < |s.rows|
      ensures MarkedBy(s, done + {n}, r) <==> MarkedBy(s, done, r) || (n in s.state && s.state[n] == r)
    {
      if n in s.state && s.state[n] == r { assert n in done + {n}; }
    }
    assert x.rows == y.rows;
    assert x.queue.timers == y.queue.timers;
    assert x.queue.pending == y.queue.pending;
  }

  lemma CancelledAll(s: Supervisor)
    ensures CancelledSome(s, s.queue.pending.Keys) == CancelAll(s)
  {
    var x, y := CancelledSome(s, s.queue.pending.Keys), CancelAll(s);
    forall r: nat | r < |s.rows| ensures MarkedBy(s, s.queue.pending.Keys, r) <==> HasQueuedRestart(s, r) {}
    assert x.rows == y.rows;
    assert (set n | n in s.queue.pending.Keys :: s.queue.pending[n]) == s.queue.pending.Values;
    assert x.queue == y.queue;
  }

  /** `cleanup` has got to the processes in `done`. */
  predicate Found(s: Supervisor, done: set<ChildId>, r: RowId) {
    r < |s.rows| && s.rows[r].proc.Some? && s.rows[r].proc.value in done && exists n :: n in s.state && s.state[n] == r
  }

  ghost function SignalledSome(s: Supervisor, done: set<ChildId>): Supervisor {
    s.(rows := seq(|s.rows|, r requires 0 <= r < |s.rows| =>
                   if Found(s, done, r) then s.rows[r].(intentionalStop := true) else s.rows[r]),
       children := seq(|s.children|, p requires 0 <= p < |s.children| =>
                       if p in done && s.children[p].spawned then s.children[p].(sigterm := true) else s.children[p]))
  }

  lemma SignalNone(s: Supervisor)
    ensures SignalledSome(s, {}) == s
  {
    assert SignalledSome(s, {}).rows == s.rows && SignalledSome(s, {}).children == s.children;
  }

  lemma SignalOneMore(s: Supervisor, done: set<ChildId>, p: ChildId)
    ensures SignalledSome(SignalledSome(s, done), {p}) == SignalledSome(s, done + {p})
  {
    var x, y := SignalledSome(SignalledSome(s, done), {p}), SignalledSome(s, done + {p});
    forall r: nat | r < |s.rows| ensures x.rows[r] == y.rows[r] {
      assert Found(SignalledSome(s, done), {p}, r) <==> Found(s, {p}, r);
      assert Found(s, done + {p}, r) <==> Found(s, done, r) || Found(s, {p}, r);
    }
    assert x.rows == y.rows && x.children == y.children;
  }

  lemma SignalledEveryone(s: Supervisor, graceMs: nat)
    ensures SignalAll(s, graceMs)
         == if s.procs == {} then s
            else SignalledSome(s, s.procs).(cleanups := s.cleanups + [Cleanup(s.procs, s.clock + graceMs, false)])
  {
    if s.procs != {} {
      var x, y := SignalAll(s, graceMs), SignalledSome(s, s.procs);
      forall r: nat | r < |s.rows| ensures x.rows[r] == y.rows[r] {
        assert Found(s, s.procs, r) <==> FoundByCleanup(s, r);
      }
      assert x.rows == y.rows && x.children == y.children;
    }
  }

  /** The SIGKILL round has got to the processes in `done`. */
  ghost function KilledSome(s: Supervisor, done: set<ChildId>): Supervisor {
    s.(children := seq(|s.children|, p requires 0 <= p < |s.children| =>
                       if p in done && Alive(s, p) then s.children[p].(sigkill := true) else s.children[p]))
  }

  lemma KillNone(s: Supervisor)
    ensures KilledSome(s, {}) == s
  {
    assert KilledSome(s, {}).children == s.children;
  }

  lemma KillOneMore(s: Supervisor, done: set<ChildId>, p: ChildId)
    ensures KilledSome(KilledSome(s, done), {p}) == KilledSome(s, done + {p})
  {
    var x, y := KilledSome(KilledSome(s, done), {p}), KilledSome(s, done + {p});
    assert x.children == y.children;
  }

  lemma KilledEveryone(s: Supervisor, k: nat)
    requires k < |s.cleanups| && !s.cleanups[k].killed && s.cleanups[k].deadline <= s.clock
    ensures OnGraceOver(s, k)
         == KilledSome(s, s.cleanups[k].taken).(cleanups := s.cleanups[k := s.cleanups[k].(killed := true)])
  {
    assert OnGraceOver(s, k).children == KilledSome(s, s.cleanups[k].taken).children;
  }

  lemma StopKeepsEntries(s: Supervisor, n: Name)
    ensures var x := StopService(s, n); x.state == s.state && |x.rows| == |s.rows|
  {}

  /** startNow, once its promise is filed. */
  ghost function NowStarted(s: Supervisor, t: TaskId, svc: ServiceConfig, world: World): Supervisor
    requires t < |s.starts.tasks|
  {
    if s.closing then Settle(s, t, Refused)
    else if Registered(s, svc.name) && Entry(s, svc.name).remote.Some? then Settle(s, t, Refused)
    else if svc.isApi then s
    else AfterPort(s, t, world)
  }

  lemma StartInOrder(s: Supervisor, svc: ServiceConfig, isRestart: bool, auto: bool, world: World)
    requires svc.name !in s.starts.starting
    ensures var x := Enter(s, StartTask(svc, isRestart, Generation(s, svc.name), auto, PortCheck));
            |s.starts.tasks| < |x.starts.tasks|
            && Start(s, svc, isRestart, auto, world) == NowStarted(x, |s.starts.tasks|, svc, world)
  {
    hide AfterPort, Settle;
  }

  lemma ClearingKeeps(s: Supervisor, n: Name)
    ensures var x := ClearStartupTimer(s, n, None);
            x.starts == s.starts && x.closing == s.closing
  {}

  lemma CancelKeepsWakes(s: Supervisor, n: Name)
    ensures CancelRestart(s, n).wakes == s.wakes
  {}

  ghost function WithCrash(s: Supervisor, r: RowId, intentionalStop: bool): Supervisor
    requires r < |s.rows|
  {
    SetRow(s, r, s.rows[r].(status := Crashed, health := Down, crashes := s.rows[r].crashes + 1,
                            intentionalStop := intentionalStop))
  }

  lemma CrashInOrder(s: Supervisor, p: ChildId, intentionalStop: bool)
    requires p < |s.children| && s.children[p].row < |s.rows|
    ensures var x := WithCrash(s, s.children[p].row, intentionalStop);
            && x.children == s.children
            && CountCrash(s, p, intentionalStop)
               == x.(children := x.children[p := x.children[p].(crashCounted := true)])
  {}
}
