/** One party at a time, and what the readiness policy may conclude from it.
 *
 *  As long as the callers of one service take turns, at most one thing can bring it up next: a
 *  queued restart, a start in flight, an explicit request, or the exit of its live process.  Then a
 *  crashed row without a pending mark is final, which is what `classify` tells a waiting client. */
module RestartAdvertising {
  import opened Options
  import opened Supervision
  import opened SupervisionInvariants

  // ---------------------------------------------------------------- who can bring a service up

  /** A live process whose failing exit will be handed to the restarter. */
  predicate Loose(s: Supervisor, p: int, n: Name) {
    && 0 <= p < |s.children| && s.children[p].svc.name == n && s.children[p].spawned && !s.children[p].exited
    && s.children[p].row < |s.rows| && !s.rows[s.children[p].row].intentionalStop
  }

  /** An explicit start or restart that has not reached the spawner yet. */
  predicate Open(s: Supervisor, q: int, n: Name) {
    0 <= q < |s.requests| && s.requests[q].name == n && !s.requests[q].phase.Handed?
  }

  /** An auto-restart waits for the start in flight. */
  predicate AutoInFlight(s: Supervisor, n: Name) {
    n in s.starts.starting && s.starts.starting[n] < |s.starts.tasks| && s.starts.tasks[s.starts.starting[n]].auto
  }

  ghost predicate NoLoose(s: Supervisor, n: Name) {
    forall p :: !Loose(s, p, n)
  }

  ghost predicate NoOpen(s: Supervisor, n: Name) {
    forall q :: !Open(s, q, n)
  }

  /** Every armed timer of the name is the one filed under it. */
  ghost predicate TimersFiled(s: Supervisor, n: Name) {
    forall k :: TimerFor(s, n, k) ==> n in s.queue.pending && s.queue.pending[n] == k
  }

  /** While a restart is queued or in flight, the registered row says so. */
  predicate Marked(s: Supervisor, n: Name) {
    n in s.queue.pending || AutoInFlight(s, n) ==> Registered(s, n) && Entry(s, n).restartPendingUntil.Some?
  }

  /** And no process of it runs. */
  predicate DownMeanwhile(s: Supervisor, n: Name) {
    (n in s.queue.pending || AutoInFlight(s, n)) && Registered(s, n) ==> !IsRunning(s, Entry(s, n))
  }

  ghost predicate OpenAlone(s: Supervisor, n: Name, q: int) {
    Open(s, q, n) ==> NoLoose(s, n) && forall x :: Open(s, x, n) ==> x == q
  }

  predicate LooseIsEntry(s: Supervisor, n: Name, p: int) {
    Loose(s, p, n) ==> Registered(s, n) && s.state[n] == s.children[p].row && Entry(s, n).proc == Some(p)
  }

  /** At most one party can bring `n` up next; and, with `marks`, a restart to come is advertised. */
  ghost predicate OneHand(s: Supervisor, n: Name, marks: bool := true) {
    && TimersFiled(s, n) && DownMeanwhile(s, n) && (marks ==> Marked(s, n))
    && (n in s.queue.pending ==> n !in s.starts.starting && NoOpen(s, n) && NoLoose(s, n))
    && (n in s.starts.starting ==> NoOpen(s, n) && NoLoose(s, n))
    && (forall q :: OpenAlone(s, n, q))
    && (forall p :: LooseIsEntry(s, n, p))
  }

  /** No restart of the name is queued or waits for a start, and no process of it may still crash. */
  ghost predicate Vacant(s: Supervisor, n: Name) {
    n !in s.queue.pending && !AutoInFlight(s, n) && NoLoose(s, n)
  }

  /** The callers of `n` take turns: one explicit start or restart at a time, none while a start is in
   *  flight, and no new registration of the name while a restart of it is queued or a process of it may
   *  still crash. */
  ghost predicate Turns(s: Supervisor, e: Event, n: Name) {
    match e
    case StartCall(svc, _, _) =>
      svc.name == n ==> n in s.starts.starting || (n !in s.queue.pending && NoOpen(s, n) && NoLoose(s, n))
    case StartServiceCall(m) => m == n ==> n !in s.starts.starting && NoOpen(s, n)
    case RestartServiceCall(m) => m == n ==> n !in s.starts.starting && NoOpen(s, n)
    case RemoteCommit(_, svc, _) => svc.name == n ==> NoLoose(s, n)
    case RegisterLazyCall(svc) => svc.name == n ==> Vacant(s, n)
    case RegisterRemoteCall(svc, _) => svc.name == n ==> Vacant(s, n)
    case _ => true
  }

  /** A stop, cancel or removal of the name takes the mark of a queued restart from the row. */
  predicate Unmarks(e: Event, n: Name) {
    || ((e.StopCall? || e.CancelCall? || e.IdleStopCall? || e.RemoveCall?) && e.name == n)
    || (e.WakeBegin? && e.svc.name == n)
  }

  /** They take turns, and none of them takes the mark of a restart that is in flight. */
  ghost predicate Calm(s: Supervisor, e: Event, n: Name) {
    Turns(s, e, n) && (Unmarks(e, n) ==> !AutoInFlight(s, n))
  }

  ghost predicate CalmRun(s: Supervisor, events: seq<Event>, n: Name)
    decreases |events|
  {
    events != [] ==> Calm(s, events[0], n) && CalmRun(Step(s, events[0]), events[1..], n)
  }

  ghost predicate TurnsRun(s: Supervisor, events: seq<Event>, n: Name)
    decreases |events|
  {
    events != [] ==> Turns(s, events[0], n) && TurnsRun(Step(s, events[0]), events[1..], n)
  }

  // ---------------------------------------------------------------- steps that leave the name alone

  /** Nothing that decides who can bring `n` up has been added. */
  ghost predicate Undisturbed(s: Supervisor, s': Supervisor, n: Name) {
    && SameEntry(s, s', n)
    && (n in s'.queue.pending <==> n in s.queue.pending)
    && (n in s.queue.pending ==> s'.queue.pending[n] == s.queue.pending[n])
    && (forall k :: TimerFor(s', n, k) ==> TimerFor(s, n, k))
    && (n in s'.starts.starting ==> n in s.starts.starting) && (AutoInFlight(s', n) ==> AutoInFlight(s, n))
    && (forall q :: Open(s', q, n) ==> Open(s, q, n))
    && (forall p :: Loose(s', p, n) ==> Loose(s, p, n) && s'.children[p].row == s.children[p].row)
    && (forall p :: StaysExited(s, s', p))
  }

  predicate SameEntry(s: Supervisor, s': Supervisor, n: Name) {
    && (n in s'.state <==> n in s.state)
    && (n in s.state ==> s'.state[n] == s.state[n])
    && |s.rows| <= |s'.rows|
    && (Registered(s, n) ==>
          && Entry(s', n).proc == Entry(s, n).proc
          && (Entry(s, n).restartPendingUntil.Some? ==> Entry(s', n).restartPendingUntil.Some?))
  }

  predicate StaysExited(s: Supervisor, s': Supervisor, p: int) {
    0 <= p < |s.children| ==> p < |s'.children| && (s.children[p].exited ==> s'.children[p].exited)
  }

  lemma UndisturbedKeeps(s: Supervisor, s': Supervisor, n: Name, marks: bool := true)
    requires Inv(s) && OneHand(s, n, marks) && Undisturbed(s, s', n)
    ensures OneHand(s', n, marks)
  {
    forall q ensures OpenAlone(s', n, q) { assert OpenAlone(s, n, q); }
    forall p ensures LooseIsEntry(s', n, p) { assert LooseIsEntry(s, n, p); }
    assert StateOk(s.rows, s.state, n);
    if (n in s'.queue.pending || AutoInFlight(s', n)) && Registered(s, n) {
      assert RowOk(s.rows, s.children, s.state[n]);
      if Entry(s, n).proc.Some? { assert StaysExited(s, s', Entry(s, n).proc.value); }
    }
  }

  /** Only state objects were written: none of `n` was detached, unmarked, or given a second life. */
  ghost predicate RowsCalm(s: Supervisor, rows: seq<ProcessState>, n: Name) {
    |rows| == |s.rows| && forall r :: RowCalm(s, rows, n, r)
  }

  predicate RowCalm(s: Supervisor, rows: seq<ProcessState>, n: Name, r: int) {
    0 <= r < |s.rows| && r < |rows| && s.rows[r].svc.name == n ==>
      && rows[r].proc == s.rows[r].proc && (s.rows[r].intentionalStop ==> rows[r].intentionalStop)
      && (s.rows[r].restartPendingUntil.Some? ==> rows[r].restartPendingUntil.Some?)
  }

  lemma RowsCalmUndisturbed(s: Supervisor, s': Supervisor, n: Name)
    requires Inv(s) && RowsCalm(s, s'.rows, n)
    requires s'.state == s.state && s'.children == s.children && s'.starts == s.starts && s'.requests == s.requests
    requires s'.queue == s.queue
    ensures Undisturbed(s, s', n)
  {
    if Registered(s, n) { assert StateOk(s.rows, s.state, n) && RowCalm(s, s'.rows, n, s.state[n]); }
    forall p | Loose(s', p, n)
      ensures Loose(s, p, n)
    {
      assert ChildOk(s.rows, s.children, s.procs, p) && RowCalm(s, s'.rows, n, s.children[p].row);
    }
  }

  // ---------------------------------------------------------------- stopping and cancelling

  lemma CancelOther(s: Supervisor, m: Name, n: Name)
    requires Inv(s) && m != n
    ensures Undisturbed(s, CancelRestart(s, m), n)
  {
    var s' := CancelRestart(s, m);
    assert StateOk(s.rows, s.state, m) && StateOk(s.rows, s.state, n) && PendingOk(s.queue, m);
    forall p | Loose(s', p, n)
      ensures Loose(s, p, n)
    {
      assert ChildOk(s.rows, s.children, s.procs, p);
    }
  }

  lemma CancelOwn(s: Supervisor, n: Name, marks: bool := true)
    requires Inv(s) && OneHand(s, n, marks) && (marks ==> !AutoInFlight(s, n))
    ensures var s' := CancelRestart(s, n); OneHand(s', n, marks) && n !in s'.queue.pending && s'.starts == s.starts
  {
    var s' := CancelRestart(s, n);
    forall k ensures !TimerFor(s', n, k) { assert TimerFor(s', n, k) ==> TimerFor(s, n, k); }
    forall p ensures Loose(s', p, n) == Loose(s, p, n) {}
    forall x ensures Open(s', x, n) == Open(s, x, n) {}
    forall q ensures OpenAlone(s', n, q) { assert OpenAlone(s, n, q); }
    forall p ensures LooseIsEntry(s', n, p) { assert LooseIsEntry(s, n, p); }
  }

  lemma SignalUndisturbed(s: Supervisor, m: Name, kill: bool, n: Name)
    requires Inv(s)
    ensures Undisturbed(s, SignalService(s, m, kill), n)
  {
    var s' := SignalService(s, m, kill);
    if Stoppable(s, m) {
      assert RowOk(s.rows, s.children, s.state[m]);
      forall p | Loose(s', p, n)
        ensures Loose(s, p, n)
      {
        assert ChildOk(s.rows, s.children, s.procs, p);
      }
    }
  }

  /** A stop leaves no live process of the name that could still crash. */
  lemma SignalOwn(s: Supervisor, kill: bool, n: Name, marks: bool := true)
    requires Inv(s) && OneHand(s, n, marks)
    ensures NoLoose(SignalService(s, n, kill), n)
  {
    var s' := SignalService(s, n, kill);
    forall p ensures !Loose(s', p, n) {
      if Loose(s', p, n) {
        SignalUndisturbed(s, n, kill, n);
        assert LooseIsEntry(s, n, p);
        assert RowOk(s.rows, s.children, s.state[n]);
        assert Stoppable(s, n);
      }
    }
  }

  lemma StopHand(s: Supervisor, m: Name, n: Name, marks: bool := true)
    requires Inv(s) && OneHand(s, n, marks) && (m == n && marks ==> !AutoInFlight(s, n))
    ensures var s' := StopService(s, m);
            OneHand(s', n, marks) && s'.starts == s.starts && s'.requests == s.requests
            && (m == n ==> n !in s'.queue.pending && NoLoose(s', n))
  {
    CancelRestartKeeps(s, m);
    if m == n { CancelOwn(s, n, marks); }
    else { CancelOther(s, m, n); UndisturbedKeeps(s, CancelRestart(s, m), n, marks); }
    var s1 := CancelRestart(s, m);
    hide CancelRestart;
    SignalUndisturbed(s1, m, false, n);
    UndisturbedKeeps(s1, SignalService(s1, m, false), n, marks);
    if m == n { SignalOwn(s1, false, n, marks); }
  }

  lemma UnregisterOther(s: Supervisor, tallies: Tallies, m: Name, n: Name)
    requires m != n
    ensures Undisturbed(s, s.(state := s.state - {m}, tallies := tallies), n)
  {}

  lemma RemoveHand(s: Supervisor, m: Name, n: Name, marks: bool := true)
    requires Inv(s) && OneHand(s, n, marks) && (m == n && marks ==> !AutoInFlight(s, n))
    ensures OneHand(RemoveService(s, m), n, marks)
  {
    if Registered(s, m) {
      SignalUndisturbed(s, m, false, n);
      SignalServiceKeeps(s, m, false);
      var s1 := SignalService(s, m, false);
      UndisturbedKeeps(s, s1, n, marks);
      assert s1.state == s.state && s1.tallies == s.tallies && s1.starts == s.starts && s1.queue == s.queue;
      var tallies := Tallies(s.tallies.removals[m := Generation(s, m) + 1], s.tallies.failures - {m});
      if m == n { SignalOwn(s, false, n, marks); }
      assert RemoveService(s, m) == CancelRestart(s1.(state := s1.state - {m}, tallies := tallies), m);
      hide *;
      if m == n { RemoveOwnHand(s1, tallies, n, marks); } else { RemoveOtherHand(s1, tallies, m, n, marks); }
    }
  }

  lemma RemoveOtherHand(s: Supervisor, tallies: Tallies, m: Name, n: Name, marks: bool := true)
    requires Inv(s) && OneHand(s, n, marks) && m != n
    ensures OneHand(CancelRestart(s.(state := s.state - {m}, tallies := tallies), m), n, marks)
  {
    var s1 := s.(state := s.state - {m}, tallies := tallies);
    UnregisterKeeps(s, m);
    IrrelevantFields(s.(state := s.state - {m}), tallies, s.closing, s.clock);
    UnregisterOther(s, tallies, m, n);
    UndisturbedKeeps(s, s1, n, marks);
    CancelOther(s1, m, n);
    UndisturbedKeeps(s1, CancelRestart(s1, m), n, marks);
  }

  /** Once unregistered, cancelling takes the name's filed timer, and that was the only one. */
  lemma RemoveOwnHand(s: Supervisor, tallies: Tallies, n: Name, marks: bool := true)
    requires OneHand(s, n, marks) && (marks ==> !AutoInFlight(s, n)) && NoLoose(s, n)
    ensures OneHand(CancelRestart(s.(state := s.state - {n}, tallies := tallies), n), n, marks)
  {
    var s' := CancelRestart(s.(state := s.state - {n}, tallies := tallies), n);
    assert s'.rows == s.rows;
    forall k ensures !TimerFor(s', n, k) { assert TimerFor(s', n, k) ==> TimerFor(s, n, k); }
    forall p ensures !Loose(s', p, n) { assert Loose(s', p, n) ==> Loose(s, p, n); }
    forall x ensures Open(s', x, n) == Open(s, x, n) {}
    forall q ensures OpenAlone(s', n, q) { assert OpenAlone(s, n, q); }
  }

  lemma InstallOther(s: Supervisor, m: Name, st: ProcessState, n: Name)
    requires Inv(s) && m != n && st.svc.name == m
    ensures Undisturbed(s, Install(s, m, st), n)
  {
    var s' := Install(s, m, st);
    assert StateOk(s.rows, s.state, n);
    forall p | Loose(s', p, n)
      ensures Loose(s, p, n)
    {
      assert ChildOk(s.rows, s.children, s.procs, p);
    }
  }

  // ---------------------------------------------------------------- starting

  /** Nobody but a live process may bring the name up. */
  lemma HandOfProcess(s: Supervisor, n: Name, marks: bool := true)
    requires n !in s.queue.pending && n !in s.starts.starting && NoOpen(s, n)
    requires forall k :: !TimerFor(s, n, k)
    requires forall p :: LooseIsEntry(s, n, p)
    ensures OneHand(s, n, marks)
  {}

  lemma ClearTimerUndisturbed(s: Supervisor, m: Name, owner: Option<RowId>, n: Name)
    ensures Undisturbed(s, ClearStartupTimer(s, m, owner), n)
  {}

  lemma SettleOther(s: Supervisor, t: TaskId, outcome: Outcome, n: Name)
    requires Inv(s) && InFlight(s, t) && s.starts.tasks[t].svc.name != n
    ensures Undisturbed(s, Settle(s, t, outcome), n)
  {
    var m := s.starts.tasks[t].svc.name;
    assert StateOk(s.rows, s.state, m) && StateOk(s.rows, s.state, n);
    assert StartingOk(s.starts, n);
    var s' := Settle(s, t, outcome);
    forall p | Loose(s', p, n)
      ensures Loose(s, p, n)
    {
      assert ChildOk(s.rows, s.children, s.procs, p);
    }
  }

  /** A start of `n` settles: of the hands there were, only a process it spawned remains. */
  lemma SettleOwn(s: Supervisor, x: Supervisor, t: TaskId, outcome: Outcome, n: Name, marks: bool := true)
    requires Inv(s) && OneHand(s, n, marks) && InFlight(s, t) && s.starts.tasks[t].svc.name == n
    requires x.starts == s.starts && x.queue == s.queue && x.requests == s.requests
    requires forall p :: LooseIsEntry(x, n, p)
    ensures OneHand(Settle(x, t, outcome), n, marks)
  {
    var s' := Settle(x, t, outcome);
    assert TaskOk(s.starts, t);
    forall k ensures !TimerFor(s', n, k) { assert TimerFor(s', n, k) ==> TimerFor(s, n, k); }
    forall q ensures !Open(s', q, n) { assert Open(s', q, n) ==> Open(s, q, n); }
    forall p ensures LooseIsEntry(s', n, p) { assert LooseIsEntry(x, n, p); }
    HandOfProcess(s', n, marks);
  }

  lemma SettleHand(s: Supervisor, t: TaskId, outcome: Outcome, n: Name, marks: bool := true)
    requires Inv(s) && OneHand(s, n, marks) && InFlight(s, t)
    ensures OneHand(Settle(s, t, outcome), n, marks)
  {
    if s.starts.tasks[t].svc.name == n {
      SettleOwn(s, s, t, outcome, n, marks);
    } else {
      SettleOther(s, t, outcome, n);
      UndisturbedKeeps(s, Settle(s, t, outcome), n, marks);
    }
  }

  lemma FailHand(s: Supervisor, t: TaskId, n: Name, marks: bool := true)
    requires Inv(s) && OneHand(s, n, marks) && InFlight(s, t)
    ensures OneHand(Settle(RecordCrashed(s, s.starts.tasks[t].svc), t, FailedBeforeStart), n, marks)
  {
    var svc := s.starts.tasks[t].svc;
    var x := RecordCrashed(s, svc);
    RecordCrashedKeeps(s, svc);
    if svc.name == n {
      assert TaskOk(s.starts, t);
      forall p ensures LooseIsEntry(x, n, p) {
        assert ChildOk(s.rows, s.children, s.procs, p);
        assert !Loose(s, p, n);
      }
      SettleOwn(s, x, t, FailedBeforeStart, n, marks);
    } else {
      InstallOther(s, svc.name, x.rows[|s.rows|], n);
      UndisturbedKeeps(s, x, n, marks);
      SettleOther(x, t, FailedBeforeStart, n);
      UndisturbedKeeps(x, Settle(x, t, FailedBeforeStart), n, marks);
    }
  }

  lemma ForkedOther(s: Supervisor, t: TaskId, succeeds: bool, n: Name)
    requires Inv(s) && InFlight(s, t) && s.starts.tasks[t].svc.name != n
    ensures Undisturbed(s, Forked(s, t, succeeds), n)
  {
    var s' := Forked(s, t, succeeds);
    assert StateOk(s.rows, s.state, n);
    forall p | Loose(s', p, n)
      ensures Loose(s, p, n) && s'.children[p].row == s.children[p].row
    {
      assert ChildOk(s.rows, s.children, s.procs, p);
    }
  }

  /** Arming the startup timer changes nothing that matters here, before or after settling. */
  lemma ArmingUndisturbed(s: Supervisor, windows: Windows, n: Name)
    ensures Undisturbed(s, s.(windows := windows), n)
  {}

  lemma ForkedHand(s: Supervisor, t: TaskId, succeeds: bool, n: Name, marks: bool := true)
    requires Inv(s) && OneHand(s, n, marks) && InFlight(s, t)
    ensures OneHand(Settle(Forked(s, t, succeeds), t, Spawned(|s.children|)), n, marks)
  {
    var svc, outcome := s.starts.tasks[t].svc, Spawned(|s.children|);
    var x := Forked(s, t, succeeds);
    if svc.name == n {
      assert TaskOk(s.starts, t);
      forall p ensures LooseIsEntry(x, n, p) {
        assert ChildOk(s.rows, s.children, s.procs, p);
        assert !Loose(s, p, n);
      }
      SettleOwn(s, x, t, outcome, n, marks);
    } else {
      ForkedKeeps(s, t, succeeds);
      ForkedOther(s, t, succeeds, n);
      UndisturbedKeeps(s, x, n, marks);
      SettleOther(x, t, outcome, n);
      UndisturbedKeeps(x, Settle(x, t, outcome), n, marks);
    }
  }

  lemma SpawnHand(s: Supervisor, t: TaskId, succeeds: bool, n: Name, marks: bool := true)
    requires Inv(s) && OneHand(s, n, marks) && InFlight(s, t) && s.starts.tasks[t].svc.name !in s.windows.owner
    ensures OneHand(Spawn(s, t, succeeds), n, marks)
  {
    var svc, outcome := s.starts.tasks[t].svc, Spawned(|s.children|);
    var x := Forked(s, t, succeeds);
    ForkedHand(s, t, succeeds, n, marks);
    ForkedKeeps(s, t, succeeds);
    SettleKeeps(x, t, outcome);
    ArmingUndisturbed(Settle(x, t, outcome), Armed(s.windows, svc, |s.rows|, s.clock), n);
    UndisturbedKeeps(Settle(x, t, outcome), Spawn(s, t, succeeds), n, marks);
  }

  lemma AfterBuildHand(s: Supervisor, t: TaskId, world: World, n: Name, marks: bool := true)
    requires Inv(s) && OneHand(s, n, marks) && InFlight(s, t) && s.starts.tasks[t].svc.name !in s.windows.owner
    ensures OneHand(AfterBuild(s, t, world), n, marks)
  {
    var task := s.starts.tasks[t];
    if !world.watchPathsExist { FailHand(s, t, n, marks); }
    else if Generation(s, task.svc.name) != task.generation { SettleHand(s, t, Removed, n, marks); }
    else if s.closing { SettleHand(s, t, Refused, n, marks); }
    else { SpawnHand(s, t, world.spawnSucceeds, n, marks); }
  }

  lemma SetTaskUndisturbed(s: Supervisor, t: TaskId, task: StartTask, n: Name)
    requires t < |s.starts.tasks| && (task.auto ==> s.starts.tasks[t].auto)
    ensures Undisturbed(s, SetTask(s, t, task), n)
  {}

  lemma SetTaskHand(s: Supervisor, t: TaskId, task: StartTask, n: Name, marks: bool := true)
    requires Inv(s) && OneHand(s, n, marks) && t < |s.starts.tasks| && (task.auto ==> s.starts.tasks[t].auto)
    ensures OneHand(SetTask(s, t, task), n, marks)
  {
    SetTaskUndisturbed(s, t, task, n);
    UndisturbedKeeps(s, SetTask(s, t, task), n, marks);
  }

  lemma ClearTimerHand(s: Supervisor, m: Name, owner: Option<RowId>, n: Name, marks: bool := true)
    requires Inv(s) && OneHand(s, n, marks)
    ensures OneHand(ClearStartupTimer(s, m, owner), n, marks)
  {
    ClearTimerUndisturbed(s, m, owner, n);
    UndisturbedKeeps(s, ClearStartupTimer(s, m, owner), n, marks);
  }

  lemma AfterPortHand(s: Supervisor, t: TaskId, world: World, n: Name, marks: bool := true)
    requires Inv(s) && OneHand(s, n, marks) && InFlight(s, t)
    ensures OneHand(AfterPort(s, t, world), n, marks)
  {
    var task := s.starts.tasks[t];
    ClearStartupTimerKeeps(s, task.svc.name, None);
    ClearTimerHand(s, task.svc.name, None, n, marks);
    var s1 := ClearStartupTimer(s, task.svc.name, None);
    if !task.svc.hasPreBuild { AfterBuildHand(s1, t, world, n, marks); }
    else if s1.closing { SettleHand(s1, t, Refused, n, marks); }
    else { SetTaskHand(s1, t, task.(phase := Building), n, marks); }
  }

  lemma PortTakenHand(s: Supervisor, t: TaskId, n: Name, marks: bool := true)
    requires Inv(s) && OneHand(s, n, marks) && InFlight(s, t)
    ensures OneHand(PortTaken(s, t), n, marks)
  {
    var svc := s.starts.tasks[t].svc;
    ClearStartupTimerKeeps(s, svc.name, None);
    ClearTimerHand(s, svc.name, None, n, marks);
    FailHand(ClearStartupTimer(s, svc.name, None), t, n, marks);
  }

  /** The name is free for a start; an auto-restart has left its mark on the row. */
  ghost predicate Ready(s: Supervisor, n: Name, auto: bool, marks: bool := true) {
    && n !in s.queue.pending && n !in s.starts.starting && NoOpen(s, n) && NoLoose(s, n)
    && (auto && Registered(s, n) ==> !IsRunning(s, Entry(s, n)))
    && (auto && marks ==> Registered(s, n) && Entry(s, n).restartPendingUntil.Some?)
  }

  lemma EnterHand(s: Supervisor, task: StartTask, n: Name, marks: bool := true)
    requires Inv(s) && OneHand(s, n, marks) && task.svc.name !in s.starts.starting
    requires task.svc.name == n ==> Ready(s, n, task.auto, marks)
    ensures OneHand(Enter(s, task), n, marks)
  {
    var s' := Enter(s, task);
    if task.svc.name != n {
      assert StartingOk(s.starts, n);
      assert Undisturbed(s, s', n);
      UndisturbedKeeps(s, s', n, marks);
    } else {
      forall k ensures !TimerFor(s', n, k) { assert TimerFor(s', n, k) ==> TimerFor(s, n, k); }
      forall q ensures !Open(s', q, n) { assert Open(s', q, n) ==> Open(s, q, n); }
      forall p ensures !Loose(s', p, n) { assert Loose(s', p, n) ==> Loose(s, p, n); }
    }
  }

  lemma StartHand(s: Supervisor, svc: ServiceConfig, isRestart: bool, auto: bool, world: World, n: Name,
                  marks: bool := true)
    requires Inv(s) && OneHand(s, n, marks)
    requires svc.name == n ==> Ready(s, n, auto, marks) || (n in s.starts.starting && !auto)
    ensures OneHand(Start(s, svc, isRestart, auto, world), n, marks)
  {
    if svc.name in s.starts.starting {
      if auto {
        assert StartingOk(s.starts, svc.name) && StartingOk(s.starts, n);
        var t := s.starts.starting[svc.name];
        var s' := SetTask(s, t, s.starts.tasks[t].(auto := true));
        assert Undisturbed(s, s', n);
        UndisturbedKeeps(s, s', n, marks);
      }
    } else {
      var t, task := |s.starts.tasks|, StartTask(svc, isRestart, Generation(s, svc.name), auto, PortCheck);
      EnterKeeps(s, task);
      EnterHand(s, task, n, marks);
      var s1 := Enter(s, task);
      if s.closing || (Registered(s, svc.name) && Entry(s, svc.name).remote.Some?) {
        SettleHand(s1, t, Refused, n, marks);
      } else if !svc.isApi { AfterPortHand(s1, t, world, n, marks); }
    }
  }

  lemma PortResultHand(s: Supervisor, t: TaskId, bindable: bool, world: World, n: Name, marks: bool := true)
    requires Inv(s) && OneHand(s, n, marks)
    ensures OneHand(OnPortResult(s, t, bindable, world), n, marks)
  {
    hide OneHand, Inv;
    if InFlight(s, t) {
      var task := s.starts.tasks[t];
      if (task.phase.PortCheck? && (bindable || task.isRestart)) || (task.phase.PortRecheck? && bindable) {
        AfterPortHand(s, t, world, n, marks);
      } else if task.phase.PortCheck? && Registered(s, task.svc.name) && IsRunning(s, Entry(s, task.svc.name)) {
        var st := Entry(s, task.svc.name);
        if !st.intentionalStop { SettleHand(s, t, LeftAlone, n, marks); }
        else { SetTaskHand(s, t, task.(phase := ExitWait(st.proc.value, s.clock + STOP_GRACE_MS)), n, marks); }
      } else if task.phase.PortCheck? || task.phase.PortRecheck? {
        PortTakenHand(s, t, n, marks);
      }
    }
  }

  lemma WaitAndBuildHand(s: Supervisor, t: TaskId, ok: bool, world: World, n: Name, marks: bool := true)
    requires Inv(s) && OneHand(s, n, marks)
    ensures OneHand(OnExitWaitOver(s, t), n, marks) && OneHand(OnBuildResult(s, t, ok, world), n, marks)
  {
    if InFlight(s, t) {
      if s.starts.tasks[t].phase.ExitWait? { SetTaskHand(s, t, s.starts.tasks[t].(phase := PortRecheck), n, marks); }
      if s.starts.tasks[t].phase.Building? {
        assert BuildingOk(s.starts.tasks, s.windows, t);
        if ok { AfterBuildHand(s, t, world, n, marks); } else { FailHand(s, t, n, marks); }
      }
    }
  }

  lemma RestartTimerHand(s: Supervisor, timer: TimerId, world: World, n: Name, marks: bool := true)
    requires Inv(s) && OneHand(s, n, marks)
    ensures OneHand(OnRestartTimer(s, timer, world), n, marks)
  {
    if RestartTimerDue(s, timer) {
      var svc := s.queue.timers[timer].svc;
      var s1 := s.(queue := s.queue.(timers := s.queue.timers - {timer}, pending := s.queue.pending - {svc.name}));
      forall m ensures PendingOk(s1.queue, m) { assert PendingOk(s.queue, m); }
      forall k ensures TimerOk(s1.queue, k) { assert TimerOk(s.queue, k); }
      forall p ensures Loose(s1, p, n) == Loose(s, p, n) {}
      forall q ensures Open(s1, q, n) == Open(s, q, n) {}
      if svc.name == n {
        assert TimerFor(s, n, timer);
        forall k ensures !TimerFor(s1, n, k) { assert TimerFor(s1, n, k) ==> TimerFor(s, n, k); }
        HandOfProcess(s1, n, marks);
      } else {
        assert Undisturbed(s, s1, n);
        UndisturbedKeeps(s, s1, n, marks);
      }
      StartHand(s1, svc, true, true, world, n, marks);
    }
  }

  // ---------------------------------------------------------------- exits

  lemma ChildGoneUndisturbed(s: Supervisor, p: ChildId, n: Name)
    requires p < |s.children|
    ensures Undisturbed(s, ChildGone(s, p), n)
  {}

  /** The row of a child that has exited may be rewritten: no other child closes over it. */
  lemma JudgeUndisturbed(s: Supervisor, p: ChildId, st: ProcessState, c: Child, n: Name)
    requires Inv(s) && p < |s.children| && s.children[p].exited && s.children[p].row < |s.rows|
    requires st.proc == s.rows[s.children[p].row].proc
    requires s.rows[s.children[p].row].restartPendingUntil.Some? ==> st.restartPendingUntil.Some?
    requires c.svc == s.children[p].svc && c.exited && c.row == s.children[p].row && c.spawned == s.children[p].spawned
    ensures Undisturbed(s, SetRow(s, s.children[p].row, st).(children := s.children[p := c]), n)
  {
    var s' := SetRow(s, s.children[p].row, st).(children := s.children[p := c]);
    forall q | Loose(s', q, n)
      ensures Loose(s, q, n) && s'.children[q].row == s.children[q].row
    {
      assert ChildOk(s.rows, s.children, s.procs, q) && ChildOk(s.rows, s.children, s.procs, p);
    }
  }

  lemma JudgeHand(s: Supervisor, p: ChildId, st: ProcessState, c: Child, n: Name, marks: bool := true)
    requires Inv(s) && OneHand(s, n, marks) && p < |s.children| && s.children[p].exited && s.children[p].row < |s.rows|
    requires st.proc == s.rows[s.children[p].row].proc
    requires s.rows[s.children[p].row].restartPendingUntil.Some? ==> st.restartPendingUntil.Some?
    requires c.svc == s.children[p].svc && c.exited && c.row == s.children[p].row && c.spawned == s.children[p].spawned
    ensures OneHand(SetRow(s, s.children[p].row, st).(children := s.children[p := c]), n, marks)
  {
    JudgeUndisturbed(s, p, st, c, n);
    UndisturbedKeeps(s, SetRow(s, s.children[p].row, st).(children := s.children[p := c]), n, marks);
  }

  lemma RelabelHand(s: Supervisor, p: ChildId, status: Status, health: Health, intentionalStop: bool, n: Name,
                    marks: bool := true)
    requires Inv(s) && OneHand(s, n, marks) && p < |s.children| && s.children[p].exited && s.children[p].row < |s.rows|
    ensures var r := s.children[p].row;
            OneHand(SetRow(s, r, s.rows[r].(status := status, health := health, intentionalStop := intentionalStop)), n,
                    marks)
  {
    var r := s.children[p].row;
    assert s.children == s.children[p := s.children[p]];
    JudgeHand(s, p, s.rows[r].(status := status, health := health, intentionalStop := intentionalStop),
              s.children[p], n, marks);
  }

  lemma CountCrashHand(s: Supervisor, p: ChildId, intentionalStop: bool, n: Name, marks: bool := true)
    requires Inv(s) && OneHand(s, n, marks) && p < |s.children| && s.children[p].exited && s.children[p].row < |s.rows|
    ensures OneHand(CountCrash(s, p, intentionalStop), n, marks)
  {
    var st := s.rows[s.children[p].row];
    JudgeHand(s, p, st.(status := Crashed, health := Down, crashes := st.crashes + 1,
                        intentionalStop := intentionalStop),
              s.children[p].(crashCounted := true), n, marks);
  }

  /** The exit of the name's only live process hands over to the restarter. */
  lemma ScheduleOwn(s: Supervisor, p: ChildId, n: Name, marks: bool := true)
    requires Inv(s) && OneHand(s, n, marks) && p < |s.children| && s.children[p].exited && s.children[p].svc.name == n
    requires s.children[p].row < |s.rows|
    requires n !in s.queue.pending && n !in s.starts.starting && NoOpen(s, n) && NoLoose(s, n)
    requires Registered(s, n) && s.state[n] == s.children[p].row && !IsRunning(s, Entry(s, n))
    ensures OneHand(ScheduleAutoRestart(s, p), n, marks)
  {
    var s' := ScheduleAutoRestart(s, p);
    var st := s.rows[s.children[p].row];
    if st.restarts < MAX_RESTARTS {
      forall k ensures TimerFor(s', n, k) ==> k == s.queue.next {
        assert TimerFor(s', n, k) && k != s.queue.next ==> TimerFor(s, n, k);
      }
      forall q ensures !Loose(s', q, n) {
        assert ChildOk(s.rows, s.children, s.procs, q);
        assert !Loose(s, q, n);
      }
      forall q ensures !Open(s', q, n) { assert Open(s', q, n) ==> Open(s, q, n); }
    }
  }

  lemma ScheduleOther(s: Supervisor, p: ChildId, n: Name, marks: bool := true)
    requires Inv(s) && OneHand(s, n, marks) && p < |s.children| && s.children[p].exited && s.children[p].svc.name != n
    requires s.children[p].row < |s.rows|
    ensures OneHand(ScheduleAutoRestart(s, p), n, marks)
  {
    var st, c := s.rows[s.children[p].row], s.children[p];
    if st.restarts < MAX_RESTARTS {
      var due := s.clock + BACKOFF_BASE_MS * Pow2(st.restarts);
      var st' := st.(restarts := st.restarts + 1, restartPendingUntil := Some(due));
      JudgeUndisturbed(s, p, st', c.(requeued := true), n);
      assert Undisturbed(s, ScheduleAutoRestart(s, p), n);
      UndisturbedKeeps(s, ScheduleAutoRestart(s, p), n, marks);
    }
  }

  /** A process that is about to crash was the one hand; when it is gone there is none. */
  lemma LastHand(s: Supervisor, p: ChildId, n: Name, marks: bool := true)
    requires Inv(s) && OneHand(s, n, marks) && Loose(s, p, n)
    ensures var s' := CountCrash(ChildGone(s, p), p, false);
            && n !in s'.queue.pending && n !in s'.starts.starting && NoOpen(s', n) && NoLoose(s', n)
            && Registered(s', n) && s'.state[n] == s'.children[p].row && !IsRunning(s', Entry(s', n))
  {
    var s1 := ChildGone(s, p);
    var s' := CountCrash(s1, p, false);
    assert LooseIsEntry(s, n, p);
    forall q ensures !Open(s', q, n) { assert OpenAlone(s, n, q); assert Open(s', q, n) ==> Open(s, q, n); }
    forall q ensures !Loose(s', q, n) {
      assert ChildOk(s.rows, s.children, s.procs, q) && ChildOk(s.rows, s.children, s.procs, p)
             && LooseIsEntry(s, n, q);
      assert q != p && Loose(s', q, n) ==> Loose(s, q, n);
    }
  }

  lemma CloseHand(s: Supervisor, p: ChildId, cleanExit: bool, n: Name, marks: bool := true)
    requires Inv(s) && OneHand(s, n, marks)
    ensures OneHand(OnClose(s, p, cleanExit), n, marks)
  {
    if p < |s.children| && !s.children[p].exited && s.children[p].row < |s.rows| {
      var c := s.children[p];
      ChildGoneUndisturbed(s, p, n);
      UndisturbedKeeps(s, ChildGone(s, p), n, marks);
      ChildGoneKeeps(s, p);
      var s1 := ChildGone(s, p);
      var st := s1.rows[c.row];
      if c.spawned && !st.intentionalStop && !cleanExit { CrashHand(s, p, n, marks); }
      hide Inv, OneHand, ChildGone, ScheduleAutoRestart;
      if !c.spawned { CountCrashHand(s1, p, false, n, marks); }
      else if st.intentionalStop {
        RelabelHand(s1, p, Stopped, Down, false, n, marks);
        RelabelHand(s1, p, st.status, st.health, false, n, marks);
      } else if cleanExit { RelabelHand(s1, p, Stopped, Down, false, n, marks); }
    }
  }

  lemma CrashHand(s: Supervisor, p: ChildId, n: Name, marks: bool := true)
    requires Inv(s) && OneHand(s, n, marks) && p < |s.children| && s.children[p].row < |s.rows| && s.children[p].spawned
    requires !s.children[p].exited && !s.rows[s.children[p].row].intentionalStop
    ensures OneHand(ScheduleAutoRestart(CountCrash(ChildGone(s, p), p, false), p), n, marks)
  {
    ChildGoneUndisturbed(s, p, n);
    UndisturbedKeeps(s, ChildGone(s, p), n, marks);
    ChildGoneKeeps(s, p);
    var s1 := ChildGone(s, p);
    assert ChildOk(s.rows, s.children, s.procs, p);
    CountCrashHand(s1, p, false, n, marks);
    CountCrashKeeps(s1, p, false);
    var s2 := CountCrash(s1, p, false);
    if s.children[p].svc.name == n {
      assert Loose(s, p, n);
      LastHand(s, p, n, marks);
      ScheduleOwn(s2, p, n, marks);
    } else {
      ScheduleOther(s2, p, n, marks);
    }
  }

  // ---------------------------------------------------------------- lines, startup timers, probes

  lemma SetRowHand(s: Supervisor, r: RowId, st: ProcessState, n: Name, marks: bool := true)
    requires Inv(s) && OneHand(s, n, marks) && r < |s.rows|
    requires st.proc == s.rows[r].proc && (s.rows[r].intentionalStop ==> st.intentionalStop)
    requires s.rows[r].restartPendingUntil.Some? ==> st.restartPendingUntil.Some?
    ensures OneHand(SetRow(s, r, st), n, marks)
  {
    RowsCalmUndisturbed(s, SetRow(s, r, st), n);
    UndisturbedKeeps(s, SetRow(s, r, st), n, marks);
  }

  lemma LineHand(s: Supervisor, p: ChildId, matches: bool, n: Name, marks: bool := true)
    requires Inv(s) && OneHand(s, n, marks)
    ensures OneHand(OnLine(s, p, matches), n, marks)
  {
    if p < |s.children| && s.children[p].row < |s.rows| {
      var c := s.children[p];
      var st := s.rows[c.row];
      var st' := st.(health := Up, status := if st.status.Starting? then Running else st.status);
      SetRowHand(s, c.row, st', n, marks);
      assert RowOk(s.rows, s.children, c.row);
      SetRowKeeps(s, c.row, st');
      ClearTimerHand(SetRow(s, c.row, st'), c.svc.name, Some(c.row), n, marks);
    }
  }

  lemma StartupTimerHand(s: Supervisor, r: RowId, n: Name, marks: bool := true)
    requires Inv(s) && OneHand(s, n, marks)
    ensures OneHand(OnStartupTimer(s, r), n, marks)
  {
    if StartupTimerDue(s, r) {
      SetRowHand(s, r, s.rows[r].(status := TimedOut, health := Down), n, marks);
      var s1 := SetRow(s, r, s.rows[r].(status := TimedOut, health := Down));
      assert RowOk(s.rows, s.children, r);
      SetRowKeeps(s, r, s.rows[r].(status := TimedOut, health := Down));
      ArmingUndisturbed(s, OnStartupTimer(s, r).windows, n);
      ArmingUndisturbed(s1, OnStartupTimer(s, r).windows, n);
      UndisturbedKeeps(s, s.(windows := OnStartupTimer(s, r).windows), n, marks);
      UndisturbedKeeps(s1, s1.(windows := OnStartupTimer(s, r).windows), n, marks);
    }
  }

  lemma PromisesUnread(s: Supervisor, wakes: seq<Wake>, reports: seq<Report>, n: Name, marks: bool := true)
    requires Inv(s) && OneHand(s, n, marks)
    ensures OneHand(s.(wakes := wakes, reports := reports), n, marks)
  {
    var s' := s.(wakes := wakes, reports := reports);
    RowsCalmUndisturbed(s, s', n);
    UndisturbedKeeps(s, s', n, marks);
  }

  lemma UnreadFields(s: Supervisor, tallies: Tallies, polls: seq<Poll>, cleanups: seq<Cleanup>, clock: nat,
                     closing: bool, n: Name, marks: bool := true)
    requires Inv(s) && OneHand(s, n, marks)
    ensures OneHand(s.(tallies := tallies, polls := polls, cleanups := cleanups, clock := clock, closing := closing),
                    n, marks)
  {
    var s' := s.(tallies := tallies, polls := polls, cleanups := cleanups, clock := clock, closing := closing);
    RowsCalmUndisturbed(s, s', n);
    UndisturbedKeeps(s, s', n, marks);
  }

  lemma PollBeginHand(s: Supervisor, m: Name, n: Name, marks: bool := true)
    requires Inv(s) && OneHand(s, n, marks)
    ensures OneHand(OnPollBegin(s, m), n, marks)
  {
    RowsCalmUndisturbed(s, OnPollBegin(s, m), n);
    UndisturbedKeeps(s, OnPollBegin(s, m), n, marks);
  }

  lemma PollResultHand(s: Supervisor, k: nat, ok: bool, n: Name, marks: bool := true)
    requires Inv(s) && OneHand(s, n, marks)
    ensures OneHand(OnPollResult(s, k, ok), n, marks)
  {
    RowsCalmUndisturbed(s, OnPollResult(s, k, ok), n);
    UndisturbedKeeps(s, OnPollResult(s, k, ok), n, marks);
  }

  // ---------------------------------------------------------------- explicit starts

  /** A request moves on, or is handed to the spawner. */
  lemma AdvanceHand(s: Supervisor, q: nat, phase: RequestPhase, n: Name, marks: bool := true)
    requires Inv(s) && OneHand(s, n, marks) && q < |s.requests| && (s.requests[q].phase.Handed? ==> phase.Handed?)
    ensures OneHand(s.(requests := s.requests[q := s.requests[q].(phase := phase)]), n, marks)
  {
    var s' := s.(requests := s.requests[q := s.requests[q].(phase := phase)]);
    assert Undisturbed(s, s', n) by {
      forall x ensures Open(s', x, n) ==> Open(s, x, n) {}
      forall p ensures Loose(s', p, n) == Loose(s, p, n) {}
    }
    UndisturbedKeeps(s, s', n, marks);
  }

  lemma AddRequestHand(s: Supervisor, m: Name, phase: RequestPhase, n: Name, marks: bool := true)
    requires Inv(s) && OneHand(s, n, marks) && Registered(s, m)
    requires m == n ==> n !in s.queue.pending && n !in s.starts.starting && NoOpen(s, n) && NoLoose(s, n)
    ensures OneHand(s.(requests := s.requests + [Request(m, s.state[m], phase)]), n, marks)
  {
    var s' := s.(requests := s.requests + [Request(m, s.state[m], phase)]);
    if m != n {
      assert Undisturbed(s, s', n) by {
        forall x ensures Open(s', x, n) ==> Open(s, x, n) {}
        forall p ensures Loose(s', p, n) == Loose(s, p, n) {}
      }
      UndisturbedKeeps(s, s', n, marks);
    } else {
      forall p ensures !Loose(s', p, n) { assert Loose(s', p, n) ==> Loose(s, p, n); }
      forall x
        ensures Open(s', x, n) ==> x == |s.requests|
      {
        assert Open(s', x, n) && x != |s.requests| ==> Open(s, x, n);
      }
      forall x ensures OpenAlone(s', n, x) {}
      forall k ensures !TimerFor(s', n, k) { assert TimerFor(s', n, k) ==> TimerFor(s, n, k); }
    }
  }

  lemma ResetBudgetHand(s: Supervisor, r: RowId, n: Name, marks: bool := true)
    requires Inv(s) && OneHand(s, n, marks) && r < |s.rows|
    ensures OneHand(SetRow(s, r, s.rows[r].(restarts := 0)), n, marks)
  {
    SetRowHand(s, r, s.rows[r].(restarts := 0), n, marks);
  }

  /** startService past its wait: whoever asks does so while no auto-restart is in flight. */
  lemma AfterDrainHand(s: Supervisor, q: nat, n: Name, marks: bool := true)
    requires Inv(s) && OneHand(s, n, marks) && q < |s.requests| && !s.requests[q].phase.Handed?
    ensures OneHand(AfterDrain(s, q), n, marks)
  {
    var req := s.requests[q];
    assert req.name == n ==> Open(s, q, n);
    if Registered(s, req.name) && req.row < |s.rows| {
      CancelRestartKeeps(s, req.name);
      if req.name == n {
        CancelOwn(s, n, marks);
      } else {
        CancelOther(s, req.name, n);
        UndisturbedKeeps(s, CancelRestart(s, req.name), n, marks);
      }
      var s1 := CancelRestart(s, req.name);
      ResetBudgetKeeps(s1, req.row);
      ResetBudgetHand(s1, req.row, n, marks);
      AdvanceHand(SetRow(s1, req.row, s1.rows[req.row].(restarts := 0)), q, Installing, n, marks);
    } else {
      AdvanceHand(s, q, Handed, n, marks);
    }
  }

  /** `startService` on a service that is not running: with no start in flight and no other request,
   *  cancelling the queued restart leaves this request the one hand. */
  lemma StartStoppedHand(s: Supervisor, m: Name, n: Name, marks: bool := true)
    requires Inv(s) && OneHand(s, n, marks) && Registered(s, m) && !IsRunning(s, Entry(s, m))
    requires m == n ==> n !in s.starts.starting && NoOpen(s, n)
    ensures OneHand(AfterDrain(s.(requests := s.requests + [Request(m, s.state[m], Installing)]), |s.requests|), n,
                    marks)
  {
    var q := |s.requests|;
    var asked := s.(requests := s.requests + [Request(m, s.state[m], Installing)]);
    AddRequest(s, m, Installing);
    if m != n {
      AddRequestHand(s, m, Installing, n, marks);
      AfterDrainHand(asked, q, n, marks);
    } else {
      CancelOwn(s, n, marks);
      CancelRestartKeeps(s, n);
      var s1 := CancelRestart(s, n);
      NoneLooseWhenDown(s1, n, marks);
      forall x ensures !Open(s1, x, n) { assert Open(s1, x, n) ==> Open(s, x, n); }
      AddRequestHand(s1, n, Installing, n, marks);
      var s2 := s1.(requests := s1.requests + [Request(n, s1.state[n], Installing)]);
      AddRequest(s1, n, Installing);
      ResetBudgetHand(s2, s.state[n], n, marks);
      assert AfterDrain(asked, q) == SetRow(s2, s.state[n], s2.rows[s.state[n]].(restarts := 0)) by {
        assert asked.requests[q := asked.requests[q].(phase := Installing)] == s2.requests;
      }
    }
  }

  lemma NoneLooseWhenDown(s: Supervisor, n: Name, marks: bool := true)
    requires Inv(s) && OneHand(s, n, marks) && Registered(s, n)
    requires !IsRunning(s, Entry(s, n)) || Entry(s, n).intentionalStop
    ensures NoLoose(s, n)
  {
    forall p ensures !Loose(s, p, n) { assert LooseIsEntry(s, n, p); }
  }

  lemma StartServiceHand(s: Supervisor, m: Name, n: Name, marks: bool := true)
    requires Inv(s) && OneHand(s, n, marks)
    requires m == n ==> n !in s.starts.starting && NoOpen(s, n)
    ensures OneHand(OnStartService(s, m), n, marks)
  {
    if Registered(s, m) && Entry(s, m).remote.None? {
      var st := Entry(s, m);
      if !IsRunning(s, st) { StartStoppedHand(s, m, n, marks); }
      else if st.intentionalStop {
        if m == n { NoneLooseWhenDown(s, n, marks); }
        AddRequestHand(s, m, Draining(st.proc.value, s.clock + STOP_GRACE_MS), n, marks);
      }
    }
  }

  lemma DrainOverHand(s: Supervisor, q: nat, n: Name, marks: bool := true)
    requires Inv(s) && OneHand(s, n, marks)
    ensures OneHand(OnDrainOver(s, q), n, marks)
  {
    if q < |s.requests| && s.requests[q].phase.Draining? {
      AfterDrainHand(s, q, n, marks);
      AdvanceHand(s, q, Handed, n, marks);
    }
  }

  lemma HandOverHand(s: Supervisor, q: nat, isRestart: bool, world: World, n: Name, marks: bool := true)
    requires Inv(s) && OneHand(s, n, marks) && q < |s.requests| && !s.requests[q].phase.Handed?
    ensures OneHand(HandOver(s, q, isRestart, world), n, marks)
  {
    AdvanceRequest(s, q, Handed);
    AdvanceHand(s, q, Handed, n, marks);
    var req := s.requests[q];
    var s1 := s.(requests := s.requests[q := req.(phase := Handed)]);
    assert RequestOk(s.rows, s.requests, q);
    if req.name == n {
      assert Open(s, q, n) && OpenAlone(s, n, q);
      forall x ensures !Open(s1, x, n) { assert Open(s1, x, n) ==> Open(s, x, n); }
      forall p ensures !Loose(s1, p, n) { assert Loose(s1, p, n) ==> Loose(s, p, n); }
    }
    StartHand(s1, s.rows[req.row].svc, isRestart, false, world, n, marks);
  }

  lemma RestartServiceHand(s: Supervisor, m: Name, n: Name, marks: bool := true)
    requires Inv(s) && OneHand(s, n, marks)
    requires m == n ==> n !in s.starts.starting && NoOpen(s, n)
    ensures OneHand(OnRestartService(s, m), n, marks)
  {
    if Registered(s, m) {
      StopServiceKeeps(s, m);
      StopHand(s, m, n, marks);
      var s1 := StopService(s, m);
      var r := s1.state[m];
      ResetBudgetKeeps(s1, r);
      ResetBudgetHand(s1, r, n, marks);
      var s2 := SetRow(s1, r, s1.rows[r].(restarts := 0));
      if m == n {
        forall x ensures !Open(s2, x, n) { assert Open(s2, x, n) ==> Open(s, x, n); }
        forall p ensures !Loose(s2, p, n) { assert Loose(s2, p, n) ==> Loose(s1, p, n); }
      }
      var delay := if IsRunning(s1, Entry(s1, m)) then RESTART_SETTLE_LIVE_MS else RESTART_SETTLE_DEAD_MS;
      AddRequestHand(s2, m, Settling(s.clock + delay), n, marks);
    }
  }

  // ---------------------------------------------------------------- shutting down, writes from outside

  lemma CancelAllHand(s: Supervisor, n: Name, marks: bool := true)
    requires Inv(s) && OneHand(s, n, marks)
    ensures OneHand(CancelAll(s), n, marks)
  {
    var s' := CancelAll(s);
    assert StateOk(s.rows, s.state, n);
    forall p ensures Loose(s', p, n) == Loose(s, p, n) {}
    forall q ensures Open(s', q, n) == Open(s, q, n) {}
    forall k ensures !TimerFor(s', n, k) {
      if n in s.queue.pending { assert s.queue.pending[n] in s.queue.pending.Values; }
      assert TimerFor(s', n, k) ==> TimerFor(s, n, k);
    }
    forall q ensures OpenAlone(s', n, q) { assert OpenAlone(s, n, q); }
    forall p ensures LooseIsEntry(s', n, p) { assert LooseIsEntry(s, n, p); }
    if AutoInFlight(s', n) && Registered(s, n) {
      assert !HasQueuedRestart(s, s.state[n]) by {
        forall m | m in s.queue.pending && m in s.state && s.state[m] == s.state[n]
          ensures m == n
        {
          assert StateOk(s.rows, s.state, m);
        }
      }
    }
  }

  lemma SignalAllHand(s: Supervisor, graceMs: nat, n: Name, marks: bool := true)
    requires Inv(s) && OneHand(s, n, marks)
    ensures OneHand(SignalAll(s, graceMs), n, marks)
  {
    var s' := SignalAll(s, graceMs);
    if s.procs != {} {
      forall p ensures Loose(s', p, n) ==> Loose(s, p, n) {}
      assert Undisturbed(s, s', n);
      UndisturbedKeeps(s, s', n, marks);
    }
  }

  lemma CleanupHand(s: Supervisor, graceMs: nat, n: Name, marks: bool := true)
    requires Inv(s) && OneHand(s, n, marks)
    ensures OneHand(OnCleanup(s, graceMs), n, marks)
  {
    IrrelevantFields(s, s.tallies, true, s.clock);
    UnreadFields(s, s.tallies, s.polls, s.cleanups, s.clock, true, n, marks);
    var s1 := s.(closing := true);
    CancelAllKeeps(s1);
    CancelAllHand(s1, n, marks);
    SignalAllHand(CancelAll(s1), graceMs, n, marks);
  }

  lemma GraceOverHand(s: Supervisor, k: nat, n: Name, marks: bool := true)
    requires Inv(s) && OneHand(s, n, marks)
    ensures OneHand(OnGraceOver(s, k), n, marks)
  {
    var s' := OnGraceOver(s, k);
    if s' != s {
      forall p ensures Loose(s', p, n) ==> Loose(s, p, n) {}
      assert Undisturbed(s, s', n);
      UndisturbedKeeps(s, s', n, marks);
    }
  }

  lemma IdleStopHand(s: Supervisor, m: Name, n: Name, marks: bool := true)
    requires Inv(s) && OneHand(s, n, marks) && (m == n && marks ==> !AutoInFlight(s, n))
    ensures OneHand(OnIdleStop(s, m), n, marks)
  {
    if Registered(s, m) && Entry(s, m).remote.None? {
      StopServiceKeeps(s, m);
      StopHand(s, m, n, marks);
      var s1 := StopService(s, m);
      SetRowHand(s1, s1.state[m], Entry(s1, m).(status := Idle, health := Asleep, startedAt := None), n, marks);
    }
  }

  lemma CommitHand(s: Supervisor, r: RowId, svc: ServiceConfig, env: string, n: Name, marks: bool := true)
    requires Inv(s) && OneHand(s, n, marks)
    ensures svc.name != n || NoLoose(s, n) ==> OneHand(OnRemoteCommit(s, r, svc, env), n, marks)
    ensures OneHand(OnLocalCommit(s, r, svc), n, marks)
  {
    if r < |s.rows| && svc.name == s.rows[r].svc.name {
      SetRowHand(s, r, s.rows[r].(svc := svc, status := Stopped, health := Down, startedAt := None, remote := None), n,
                 marks);
      if svc.name != n || NoLoose(s, n) { DetachHand(s, r, OnRemoteCommit(s, r, svc, env).rows[r], n, marks); }
    }
  }

  lemma DetachHand(s: Supervisor, r: RowId, st: ProcessState, n: Name, marks: bool := true)
    requires Inv(s) && OneHand(s, n, marks) && r < |s.rows| && st.svc.name == s.rows[r].svc.name
    requires s.rows[r].svc.name != n || NoLoose(s, n)
    requires st.proc.None? && st.intentionalStop == s.rows[r].intentionalStop
             && st.restartPendingUntil == s.rows[r].restartPendingUntil
    ensures OneHand(SetRow(s, r, st), n, marks)
  {
    var s' := SetRow(s, r, st);
    if s.rows[r].svc.name != n {
      assert StateOk(s.rows, s.state, n);
      RowsCalmUndisturbed(s, s', n);
      UndisturbedKeeps(s, s', n, marks);
    } else {
      forall p ensures !Loose(s', p, n) { assert Loose(s', p, n) ==> Loose(s, p, n); }
      forall x ensures Open(s', x, n) == Open(s, x, n) {}
      forall q ensures OpenAlone(s', n, q) { assert OpenAlone(s, n, q); }
      forall k ensures TimerFor(s', n, k) == TimerFor(s, n, k) {}
    }
  }

  lemma InstallOwn(s: Supervisor, st: ProcessState, n: Name, marks: bool := true)
    requires Inv(s) && OneHand(s, n, marks) && Vacant(s, n)
    ensures OneHand(Install(s, n, st), n, marks)
  {
    var s' := Install(s, n, st);
    forall k ensures TimerFor(s', n, k) == TimerFor(s, n, k) {}
    forall p ensures !Loose(s', p, n) {
      if 0 <= p < |s.children| { assert ChildOk(s.rows, s.children, s.procs, p); }
      assert Loose(s', p, n) ==> Loose(s, p, n);
    }
    forall x ensures Open(s', x, n) == Open(s, x, n) {}
    forall q ensures OpenAlone(s', n, q) { assert OpenAlone(s, n, q); }
  }

  lemma RegistrationHand(s: Supervisor, svc: ServiceConfig, env: string, n: Name, marks: bool := true)
    requires Inv(s) && OneHand(s, n, marks) && (svc.name == n ==> Vacant(s, n))
    ensures OneHand(OnRegisterLazy(s, svc), n, marks) && OneHand(OnRegisterRemote(s, svc, env), n, marks)
  {
    var a, b := OnRegisterLazy(s, svc), OnRegisterRemote(s, svc, env);
    if svc.name == n {
      InstallOwn(s, a.rows[|s.rows|], n, marks);
      InstallOwn(s, b.rows[|s.rows|], n, marks);
    } else {
      InstallOther(s, svc.name, a.rows[|s.rows|], n);
      UndisturbedKeeps(s, a, n, marks);
      InstallOther(s, svc.name, b.rows[|s.rows|], n);
      UndisturbedKeeps(s, b, n, marks);
    }
  }

  lemma EntryWritesHand(s: Supervisor, m: Name, reachable: bool, suspended: bool, n: Name, marks: bool := true)
    requires Inv(s) && OneHand(s, n, marks)
    ensures OneHand(Awake(s, m, reachable, suspended), n, marks) && OneHand(OnRemoteProbe(s, m, reachable), n, marks)
    ensures OneHand(OnBootMarksRunning(s, m), n, marks)
  {
    if Registered(s, m) {
      var r, st := s.state[m], Entry(s, m);
      SetRowHand(s, r, st.(status := Running, health := Up), n, marks);
      SetRowHand(s, r, st.(status := TimedOut), n, marks);
      SetRowHand(s, r, st.(status := Running), n, marks);
      SetRowHand(s, r, st.(health := if reachable then Up else Down), n, marks);
    }
  }

  // ---------------------------------------------------------------- runs

  lemma TrivialHand(s: Supervisor, m: Name, ms: nat, n: Name, marks: bool := true)
    requires Inv(s) && OneHand(s, n, marks)
    ensures OneHand(OnTick(s, ms), n, marks) && OneHand(OnForgetHealth(s, m), n, marks)
  {
    UnreadFields(s, s.tallies, s.polls, s.cleanups, s.clock + ms, s.closing, n, marks);
    UnreadFields(s, s.tallies.(failures := s.tallies.failures - {m}), s.polls, s.cleanups, s.clock, s.closing, n,
                 marks);
  }

  lemma CancelHand(s: Supervisor, m: Name, n: Name, marks: bool := true)
    requires Inv(s) && OneHand(s, n, marks) && (m == n && marks ==> !AutoInFlight(s, n))
    ensures OneHand(CancelRestart(s, m), n, marks)
  {
    if m == n { CancelOwn(s, n, marks); }
    else { CancelOther(s, m, n); UndisturbedKeeps(s, CancelRestart(s, m), n, marks); }
  }

  lemma SignalHand(s: Supervisor, m: Name, kill: bool, n: Name, marks: bool := true)
    requires Inv(s) && OneHand(s, n, marks)
    ensures OneHand(SignalService(s, m, kill), n, marks)
  {
    SignalUndisturbed(s, m, kill, n);
    UndisturbedKeeps(s, SignalService(s, m, kill), n, marks);
  }

  lemma HandOversHand(s: Supervisor, q: nat, world: World, n: Name, marks: bool := true)
    requires Inv(s) && OneHand(s, n, marks)
    ensures OneHand(OnInstallDone(s, q, world), n, marks) && OneHand(OnRestartResume(s, q, world), n, marks)
  {
    if q < |s.requests| && !s.requests[q].phase.Handed? {
      HandOverHand(s, q, false, world, n, marks);
      HandOverHand(s, q, true, world, n, marks);
    }
  }

  lemma PromiseHand(s: Supervisor, e: Event, n: Name, marks: bool := true)
    requires Inv(s) && OneHand(s, n, marks) && Promises(e)
    requires e.WakeBegin? && e.svc.name == n && marks ==> !AutoInFlight(s, n)
    ensures OneHand(Step(s, e), n, marks)
  {
    PromisesAre(s, e);
    var x := Written(s, e);
    WrittenKeeps(s, e);
    hide Inv, OneHand, Step, CancelRestart, Awake, AutoInFlight;
    if e.WakeBegin? { CancelHand(s, e.svc.name, n, marks); }
    if e.WakeSettles? && Waking(s, e.wake) {
      EntryWritesHand(s, s.wakes[e.wake].name, e.reachable, s.wakes[e.wake].suspended, n, marks);
    }
    if e.OnceReports? && Reporting(s, e.report) { EntryWritesHand(s, s.reports[e.report].name, true, true, n, marks); }
    PromisesUnread(x, Step(s, e).wakes, Step(s, e).reports, n, marks);
  }

  lemma TurnsSay(s: Supervisor, e: Event, n: Name)
    requires Turns(s, e, n)
    ensures e.StartCall? && e.svc.name == n ==> n in s.starts.starting || Ready(s, n, false)
    ensures (e.StartServiceCall? || e.RestartServiceCall?) && e.name == n ==> n !in s.starts.starting && NoOpen(s, n)
    ensures e.RemoteCommit? && e.svc.name == n ==> NoLoose(s, n)
    ensures (e.RegisterLazyCall? || e.RegisterRemoteCall?) && e.svc.name == n ==> Vacant(s, n)
  {}

  lemma UnmarksSays(e: Event, n: Name)
    ensures Unmarks(e, n)
            <==> || ((e.StopCall? || e.CancelCall? || e.IdleStopCall? || e.RemoveCall?) && e.name == n)
                 || (e.WakeBegin? && e.svc.name == n)
  {}

  lemma ReadyUnmarked(s: Supervisor, n: Name, marks: bool)
    ensures Ready(s, n, false) ==> Ready(s, n, false, marks)
  {}

  /** Steps that nobody calls for: these need no turn-taking. */
  lemma FreeStepsKeepOneHand(s: Supervisor, e: Event, n: Name, marks: bool := true)
    requires Inv(s) && OneHand(s, n, marks)
    requires !e.StartCall? && !e.StopCall? && !e.CancelCall? && !e.RemoveCall? && !e.StartServiceCall?
          && !e.RestartServiceCall? && !e.RegisterLazyCall? && !e.IdleStopCall? && !e.RegisterRemoteCall?
          && !e.RemoteCommit? && !e.WakeBegin?
    ensures OneHand(Step(s, e), n, marks)
  {
    hide *;
    StepIs(s, e);
    PromiseEvents(e);
    match e
    case Tick(ms) => TrivialHand(s, "", ms, n, marks);
    case PortResult(t, bindable, world) => PortResultHand(s, t, bindable, world, n, marks);
    case ExitWaitOver(t) => WaitAndBuildHand(s, t, true, World(true, true), n, marks);
    case BuildResult(t, ok, world) => WaitAndBuildHand(s, t, ok, world, n, marks);
    case Line(p, matches) => LineHand(s, p, matches, n, marks);
    case Close(p, cleanExit) => CloseHand(s, p, cleanExit, n, marks);
    case StartupTimerFires(r) => StartupTimerHand(s, r, n, marks);
    case RestartTimerFires(timer, world) => RestartTimerHand(s, timer, world, n, marks);
    case ForceStopCall(m) => SignalHand(s, m, true, n, marks);
    case DrainOver(q) => DrainOverHand(s, q, n, marks);
    case InstallDone(q, world) => HandOversHand(s, q, world, n, marks);
    case RestartResume(q, world) => HandOversHand(s, q, world, n, marks);
    case CleanupCall(graceMs) => CleanupHand(s, graceMs, n, marks);
    case GraceOver(k) => GraceOverHand(s, k, n, marks);
    case PollBegin(m) => PollBeginHand(s, m, n, marks);
    case PollResult(k, ok) => PollResultHand(s, k, ok, n, marks);
    case ForgetHealthCall(m) => TrivialHand(s, m, 0, n, marks);
    case BootMarksRunning(m) => EntryWritesHand(s, m, true, true, n, marks);
    case WakeSettles(w, reachable) => PromiseHand(s, e, n, marks);
    case WakeGivesUp(w) => PromiseHand(s, e, n, marks);
    case LocalCommit(r, svc) => CommitHand(s, r, svc, "", n, marks);
    case RemoteProbe(m, reachable) => EntryWritesHand(s, m, reachable, true, n, marks);
    case OnceSettles(svc, reachable) => PromiseHand(s, e, n, marks);
    case OnceReports(k) => PromiseHand(s, e, n, marks);
  }

  /** As long as the callers of a name take turns, at most one party has it in hand; and if none of them
   *  takes the mark of a restart in flight, a restart to come is advertised. */
  lemma StepKeepsOneHand(s: Supervisor, e: Event, n: Name, marks: bool := true)
    requires Inv(s) && OneHand(s, n, marks) && Turns(s, e, n)
    requires marks && Unmarks(e, n) ==> !AutoInFlight(s, n)
    ensures OneHand(Step(s, e), n, marks)
  {
    hide *;
    TurnsSay(s, e, n);
    UnmarksSays(e, n);
    ReadyUnmarked(s, n, marks);
    PromiseEvents(e);
    StepIs(s, e);
    if e.StartCall? { StartHand(s, e.svc, e.isRestart, false, e.world, n, marks); }
    else if e.StopCall? { StopHand(s, e.name, n, marks); }
    else if e.CancelCall? { CancelHand(s, e.name, n, marks); }
    else if e.WakeBegin? { PromiseHand(s, e, n, marks); }
    else if e.RemoveCall? { RemoveHand(s, e.name, n, marks); }
    else if e.StartServiceCall? { StartServiceHand(s, e.name, n, marks); }
    else if e.RestartServiceCall? { RestartServiceHand(s, e.name, n, marks); }
    else if e.RegisterLazyCall? { RegistrationHand(s, e.svc, "", n, marks); }
    else if e.IdleStopCall? { IdleStopHand(s, e.name, n, marks); }
    else if e.RegisterRemoteCall? { RegistrationHand(s, e.svc, e.env, n, marks); }
    else if e.RemoteCommit? { CommitHand(s, e.row, e.svc, e.env, n, marks); }
    else { FreeStepsKeepOneHand(s, e, n, marks); }
  }

  lemma {:induction false} RunKeepsOneHand(s: Supervisor, events: seq<Event>, n: Name)
    requires Inv(s) && OneHand(s, n) && CalmRun(s, events, n)
    ensures OneHand(Run(s, events), n)
    decreases |events|
  {
    hide Step, OneHand, Turns, Unmarks, AutoInFlight, Inv;
    if events != [] {
      StepKeeps(s, events[0]);
      StepKeepsOneHand(s, events[0], n);
      RunKeepsOneHand(Step(s, events[0]), events[1..], n);
    }
  }

  lemma {:induction false} RunKeepsHandUnmarked(s: Supervisor, events: seq<Event>, n: Name)
    requires Inv(s) && OneHand(s, n, false) && TurnsRun(s, events, n)
    ensures OneHand(Run(s, events), n, false)
    decreases |events|
  {
    hide Step, OneHand, Turns, Unmarks, AutoInFlight, Inv;
    if events != [] {
      StepKeeps(s, events[0]);
      StepKeepsOneHand(s, events[0], n, false);
      RunKeepsHandUnmarked(Step(s, events[0]), events[1..], n);
    }
  }

  // ---------------------------------------------------------------- the readiness policy

  datatype Readiness = ReadyNow | StillWaiting | Failed

  /** What the control plane sends about a service. `restartPendingIn` is missing altogether in the
   *  answers of a daemon that does not know the field. */
  datatype Snapshot = Snapshot(status: Status, health: Health, crashes: nat, restartPendingIn: Option<Option<nat>>)

  function SnapshotOf(s: Supervisor, n: Name): Snapshot
    requires Registered(s, n)
  {
    var st := Entry(s, n);
    Snapshot(st.status, st.health, st.crashes,
             Some(if st.restartPendingUntil.None? then None
                  else if st.restartPendingUntil.value <= s.clock then Some(0)
                  else Some(st.restartPendingUntil.value - s.clock)))
  }

  function Classify(svc: Snapshot, requireUp: bool): Readiness {
    if svc.health.Up? then ReadyNow
    else if svc.status.Crashed? then
      if svc.restartPendingIn.None? then StillWaiting
      else if svc.restartPendingIn.value.Some? then StillWaiting
      else Failed
    else if svc.status.TimedOut? then StillWaiting
    else if svc.status.Idle? then (if requireUp then StillWaiting else ReadyNow)
    else StillWaiting
  }

  /** No auto-restart of the name is queued, and none in flight can still spawn it. */
  ghost predicate NothingQueued(s: Supervisor, n: Name) {
    n !in s.queue.pending && (forall k :: !TimerFor(s, n, k)) && !AutoInFlight(s, n)
  }

  lemma FailedMeansNothingQueued(s: Supervisor, n: Name, requireUp: bool)
    requires OneHand(s, n) && Registered(s, n)
    requires Classify(SnapshotOf(s, n), requireUp).Failed?
    ensures NothingQueued(s, n)
  {}

  /** No party has the name in hand: it has no live process, timer, start or request. */
  ghost predicate HandsOff(s: Supervisor, n: Name) {
    && n !in s.queue.pending && n !in s.starts.starting
    && NoOpen(s, n) && NoLoose(s, n) && forall k :: !TimerFor(s, n, k)
  }

  lemma FreeHand(s: Supervisor, n: Name, marks: bool := true)
    requires HandsOff(s, n)
    ensures OneHand(s, n, marks)
  {
    forall p ensures LooseIsEntry(s, n, p) { assert !Loose(s, p, n); }
    HandOfProcess(s, n, marks);
  }

  /** With at most one explicit start or restart of the name under way, and no cancel under an
   *  auto-restart in flight: whenever `classify` calls the row failed, nothing is queued for it. */
  lemma FailedIsFinal(s0: Supervisor, before: seq<Event>, calm: seq<Event>, n: Name, requireUp: bool)
    requires Initial(s0)
    requires HandsOff(Run(s0, before), n) && CalmRun(Run(s0, before), calm, n)
    requires Registered(Run(Run(s0, before), calm), n)
    requires Classify(SnapshotOf(Run(Run(s0, before), calm), n), requireUp).Failed?
    ensures NothingQueued(Run(Run(s0, before), calm), n)
  {
    var s := Run(s0, before);
    ReachableInv(s0, before);
    FreeHand(s, n);
    RunKeepsOneHand(s, calm, n);
    FailedMeansNothingQueued(Run(s, calm), n, requireUp);
  }

  /** The excluded case: a cancel leaves nothing queued unnoticed exactly when no auto-restart of
   *  the name was in flight. */
  lemma CancelHidesRestart(s: Supervisor, n: Name, requireUp: bool)
    requires Inv(s) && OneHand(s, n) && Registered(s, n) && Entry(s, n).status.Crashed? && !Entry(s, n).health.Up?
    ensures var c := Step(s, CancelCall(n));
            && Registered(c, n) && Classify(SnapshotOf(c, n), requireUp).Failed?
            && (NothingQueued(c, n) <==> !AutoInFlight(s, n))
  {
    var c := Step(s, CancelCall(n));
    assert c == CancelRestart(s, n);
    assert c.starts == s.starts;
    forall k ensures !TimerFor(c, n, k) { assert TimerFor(c, n, k) ==> TimerFor(s, n, k); }
  }

  /** As long as the callers of a name take turns, its removal leaves no restart timer of it armed. */
  lemma RemovalLeavesNoTimer(s0: Supervisor, before: seq<Event>, turns: seq<Event>, n: Name, k: TimerId)
    requires Initial(s0)
    requires HandsOff(Run(s0, before), n) && TurnsRun(Run(s0, before), turns, n)
    requires Registered(Run(Run(s0, before), turns), n)
    ensures !TimerFor(Step(Run(Run(s0, before), turns), RemoveCall(n)), n, k)
  {
    var s := Run(s0, before);
    ReachableInv(s0, before);
    FreeHand(s, n, false);
    RunKeepsHandUnmarked(s, turns, n);
    FiledTimersGo(Run(s, turns), n, k);
  }

  lemma FiledTimersGo(s: Supervisor, n: Name, k: TimerId)
    requires Registered(s, n) && TimersFiled(s, n)
    ensures !TimerFor(Step(s, RemoveCall(n)), n, k)
  {
    var s' := Step(s, RemoveCall(n));
    assert TimerFor(s', n, k) ==> TimerFor(s, n, k);
  }
}
