/** What the exit of a process leaves: what its row shows, and whether the service comes back. */
module ExitOutcomes {
  import opened Options
  import opened Supervision
  import opened SupervisionInvariants
  import opened SupervisionHistory
  import opened SupervisionSafety
  import opened StartOutcomes

  /** The row is still registered for the process, and reads as if the process were there. */
  predicate StillShows(s: Supervisor, p: ChildId)
    requires p < |s.children| && s.children[p].row < |s.rows|
  {
    var c := s.children[p];
    var st := s.rows[c.row];
    && c.svc.name in s.state && s.state[c.svc.name] == c.row && st.proc == Some(p)
    && st.status in {Starting, Running, TimedOut}
  }

  /** What is always true of an exit: the process is gone from the list and from its startup timer, and no
   *  other process and no other row is touched. */
  ghost predicate OnlyItsOwn(s: Supervisor, s': Supervisor, p: ChildId)
    requires p < |s.children| && s.children[p].row < |s.rows|
  {
    var r := s.children[p].row;
    && s'.procs == s.procs - {p} && |s'.children| == |s.children| && s'.children[p].exited
    && (forall q :: 0 <= q < |s.children| && q != p ==> s'.children[q] == s.children[q])
    && |s'.rows| == |s.rows| && (forall x :: 0 <= x < |s.rows| && x != r ==> s'.rows[x] == s.rows[x])
    && r !in s'.windows.due && (forall x: RowId :: x in s.windows.due && x != r ==> x in s'.windows.due)
    && s'.state == s.state && s'.starts == s.starts && s'.requests == s.requests && s'.clock == s.clock
    && s'.closing == s.closing && s'.tallies == s.tallies
  }

  /** The row reads so afterwards; nothing else that it says has changed but its stop mark. */
  predicate Reads(st: ProcessState, st': ProcessState, status: Status, health: Health) {
    st' == st.(status := status, health := health, intentionalStop := false)
  }

  /** A crash: counted, and shown. */
  predicate ReadsCrashed(st: ProcessState, st': ProcessState) {
    && st'.status.Crashed? && st'.health.Down? && st'.crashes == st.crashes + 1 && !st'.intentionalStop
    && st' == st.(status := Crashed, health := Down, crashes := st.crashes + 1, intentionalStop := false,
                  restarts := st'.restarts, restartPendingUntil := st'.restartPendingUntil)
  }

  /** A restart of the process has been queued, with one more of the budget used and said so in the row. */
  predicate RestartQueued(s: Supervisor, s': Supervisor, p: ChildId)
    requires p < |s.children| && s.children[p].row < |s.rows| && |s'.rows| == |s.rows|
  {
    var c := s.children[p];
    var st, st', k := s.rows[c.row], s'.rows[c.row], s.queue.next;
    var due := s.clock + BACKOFF_BASE_MS * Pow2(st.restarts);
    && s'.queue == Queue(s.queue.pending[c.svc.name := k], s.queue.timers[k := RestartTimer(c.svc, due)], k + 1)
    && st'.restarts == st.restarts + 1 && st'.restartPendingUntil == Some(due)
  }

  predicate NothingMoreQueued(s: Supervisor, s': Supervisor, r: RowId)
    requires r < |s.rows| && |s'.rows| == |s.rows|
  {
    s'.queue == s.queue && s'.rows[r].restarts == s.rows[r].restarts
    && s'.rows[r].restartPendingUntil == s.rows[r].restartPendingUntil
  }

  ghost predicate ExitRead(s: Supervisor, s': Supervisor, p: ChildId, cleanExit: bool)
    requires p < |s.children| && s.children[p].row < |s.rows|
  {
    var c := s.children[p];
    var st := s.rows[c.row];
    && OnlyItsOwn(s, s', p)
    && var st' := s'.rows[c.row];
       if !c.spawned then ReadsCrashed(st, st') && NothingMoreQueued(s, s', c.row)
       else if st.intentionalStop then
         && NothingMoreQueued(s, s', c.row)
         && if StillShows(s, p) then Reads(st, st', Stopped, Down) else Reads(st, st', st.status, st.health)
       else if cleanExit then NothingMoreQueued(s, s', c.row) && Reads(st, st', Stopped, Down)
       else
         && ReadsCrashed(st, st')
         && if st.restarts < MAX_RESTARTS then RestartQueued(s, s', p) else NothingMoreQueued(s, s', c.row)
  }

  lemma GoneFromWindows(s: Supervisor, p: ChildId)
    requires Inv(s) && p < |s.children|
    ensures var s1 := ChildGone(s, p);
            && s1.procs == s.procs - {p} && s1.children == s.children[p := s.children[p].(exited := true)]
            && s1 == s.(windows := s1.windows, procs := s1.procs, children := s1.children)
            && s.children[p].row !in s1.windows.due
            && forall x: RowId :: x in s.windows.due && x != s.children[p].row ==> x in s1.windows.due
  {
    var c := s.children[p];
    assert ChildOk(s.rows, s.children, s.procs, p) && DueOk(s.rows, s.windows, c.row);
    assert OwnerOk(s.rows, s.windows, c.svc.name);
  }

  /** The exit of a live process of which there is a row. */
  predicate CanExit(s: Supervisor, p: ChildId) {
    p < |s.children| && !s.children[p].exited && s.children[p].row < |s.rows|
  }

  lemma FailedSpawnReads(s: Supervisor, p: ChildId, cleanExit: bool)
    requires Inv(s) && CanExit(s, p) && !s.children[p].spawned
    ensures ExitRead(s, OnClose(s, p, cleanExit), p, cleanExit)
  {
    GoneFromWindows(s, p);
    assert OnClose(s, p, cleanExit) == CountCrash(ChildGone(s, p), p, false);
    hide ChildGone, Inv, OnClose;
  }

  lemma IntendedExitReads(s: Supervisor, p: ChildId, cleanExit: bool)
    requires Inv(s) && CanExit(s, p) && s.children[p].spawned && s.rows[s.children[p].row].intentionalStop
    ensures ExitRead(s, OnClose(s, p, cleanExit), p, cleanExit)
  {
    GoneFromWindows(s, p);
    hide ChildGone, Inv;
  }

  lemma CrashReads(s: Supervisor, p: ChildId)
    requires Inv(s) && CanExit(s, p) && s.children[p].spawned && !s.rows[s.children[p].row].intentionalStop
    ensures ExitRead(s, OnClose(s, p, false), p, false)
  {
    GoneFromWindows(s, p);
    var s1 := ChildGone(s, p);
    assert OnClose(s, p, false) == ScheduleAutoRestart(CountCrash(s1, p, false), p);
    hide ChildGone, Inv, Pow2, OnClose;
    QueuesAfterCrash(s1, p);
  }

  lemma QueuesAfterCrash(s: Supervisor, p: ChildId)
    requires p < |s.children| && s.children[p].row < |s.rows|
    ensures var s', r := ScheduleAutoRestart(CountCrash(s, p, false), p), s.children[p].row;
            && s' == s.(rows := s'.rows, children := s'.children, queue := s'.queue)
            && |s'.rows| == |s.rows| && |s'.children| == |s.children|
            && (forall x :: 0 <= x < |s.rows| && x != r ==> s'.rows[x] == s.rows[x])
            && (forall q :: 0 <= q < |s.children| && q != p ==> s'.children[q] == s.children[q])
            && s'.children[p].exited == s.children[p].exited && ReadsCrashed(s.rows[r], s'.rows[r])
            && if s.rows[r].restarts < MAX_RESTARTS then RestartQueued(s, s', p) else NothingMoreQueued(s, s', r)
  {
    hide Pow2;
  }

  lemma CleanExitReads(s: Supervisor, p: ChildId)
    requires Inv(s) && CanExit(s, p) && s.children[p].spawned && !s.rows[s.children[p].row].intentionalStop
    ensures ExitRead(s, OnClose(s, p, true), p, true)
  {
    GoneFromWindows(s, p);
    hide ChildGone, Inv;
  }

  lemma ExitReads(s: Supervisor, p: ChildId, cleanExit: bool)
    requires Inv(s) && CanExit(s, p)
    ensures ExitRead(s, OnClose(s, p, cleanExit), p, cleanExit)
  {
    hide Inv, OnClose, ExitRead;
    if !s.children[p].spawned { FailedSpawnReads(s, p, cleanExit); }
    else if s.rows[s.children[p].row].intentionalStop { IntendedExitReads(s, p, cleanExit); }
    else if cleanExit { CleanExitReads(s, p); } else { CrashReads(s, p); }
  }

  // ---------------------------------------------------------------- over whole runs

  lemma HasItsRow(s: Supervisor, p: ChildId)
    requires Inv(s) && p < |s.children|
    ensures s.children[p].row < |s.rows|
  {
    assert ChildOk(s.rows, s.children, s.procs, p);
  }

  /** Whatever has happened before: a process that never came to life and one that fails read crashed; one
   *  that exits by itself without failing reads stopped; and only a failure with budget left is queued. */
  lemma EveryExitIsRead(s0: Supervisor, before: seq<Event>, p: ChildId, cleanExit: bool)
    requires Initial(s0) && p < |Run(s0, before).children| && !Run(s0, before).children[p].exited
    ensures var s := Run(s0, before);
            s.children[p].row < |s.rows| && ExitRead(s, Step(s, Close(p, cleanExit)), p, cleanExit)
  {
    var s := Run(s0, before);
    ReachableInv(s0, before);
    HasItsRow(s, p);
    hide Run, Inv, ExitRead;
    ExitReads(s, p, cleanExit);
    StepIs(s, Close(p, cleanExit));
    hide Step;
  }

  /** The row of a process that was stopped, once the process has exited. */
  ghost predicate ReadsStoppedIfShown(f: Supervisor, g: Supervisor, p: ChildId) {
    && CanExit(f, p) && OnlyItsOwn(f, g, p) && NothingMoreQueued(f, g, f.children[p].row)
    && var st, st' := f.rows[f.children[p].row], g.rows[f.children[p].row];
       if StillShows(f, p) then Reads(st, st', Stopped, Down) else Reads(st, st', st.status, st.health)
  }

  lemma StoppedExitReads(f: Supervisor, p: ChildId, cleanExit: bool)
    requires Inv(f) && p < |f.children| && f.children[p].stopped && !f.children[p].exited
    ensures ReadsStoppedIfShown(f, Step(f, Close(p, cleanExit)), p)
  {
    assert ChildOk(f.rows, f.children, f.procs, p);
    StepIs(f, Close(p, cleanExit));
    hide Step, Inv, OnClose;
    IntendedExitReads(f, p, cleanExit);
    hide OnlyItsOwn, Reads, StillShows, NothingMoreQueued;
  }

  lemma StopStays(s0: Supervisor, before: seq<Event>, stop: Event, n: Name, after: seq<Event>)
    requires Initial(s0) && Stoppable(Run(s0, before), n)
    requires stop == StopCall(n) || stop == ForceStopCall(n) || stop == RemoveCall(n)
    ensures var p := Entry(Run(s0, before), n).proc.value;
            var f := Run(Step(Run(s0, before), stop), after);
            Inv(f) && p < |f.children| && f.children[p].stopped
  {
    var s := Run(s0, before);
    var p := Entry(s, n).proc.value;
    var c := Step(s, stop);
    ReachableInv(s0, before);
    StepKeeps(s, stop);
    RunKeeps(c, after);
    RunAges(c, after);
    assert ChildAged(c.children, Run(c, after).children, p);
  }

  /** However a process that a stop, a force-stop or a removal acted on exits, and whatever has happened to
   *  its name in between: its row reads stopped and down exactly when it is still registered, still holds
   *  that process, and was starting, running or timed out; otherwise its status and health stay. */
  lemma StoppedReadsStopped(s0: Supervisor, before: seq<Event>, stop: Event, n: Name, after: seq<Event>,
                            cleanExit: bool)
    requires Initial(s0) && Stoppable(Run(s0, before), n)
    requires stop == StopCall(n) || stop == ForceStopCall(n) || stop == RemoveCall(n)
    requires var p := Entry(Run(s0, before), n).proc.value;
             var f := Run(Step(Run(s0, before), stop), after);
             p < |f.children| && !f.children[p].exited
    ensures var p := Entry(Run(s0, before), n).proc.value;
            var f := Run(Step(Run(s0, before), stop), after);
            ReadsStoppedIfShown(f, Step(f, Close(p, cleanExit)), p)
  {
    hide Run, Step, Inv, ReadsStoppedIfShown, Initial;
    StopStays(s0, before, stop, n, after);
    StoppedExitReads(Run(Step(Run(s0, before), stop), after), Entry(Run(s0, before), n).proc.value, cleanExit);
  }

  // ---------------------------------------------------------------- a crash comes back

  /** The crash, the wait of its backoff, and the timer. */
  function CrashAndWait(s: Supervisor, p: ChildId): seq<Event>
    requires p < |s.children| && s.children[p].row < |s.rows|
  {
    [Close(p, false), Tick(BACKOFF_BASE_MS * Pow2(s.rows[s.children[p].row].restarts)),
     RestartTimerFires(s.queue.next, FINE)]
  }

  lemma ThreeSteps(s: Supervisor, a: Event, b: Event, c: Event)
    ensures Run(s, [a, b, c]) == Step(Step(Step(s, a), b), c)
  {
    hide Step;
    assert [a, b, c][1..] == [b, c] && [b, c][1..] == [c] && [c][1..] == [];
    assert Run(s, [a, b, c]) == Run(Step(s, a), [b, c]);
    assert Run(Step(s, a), [b, c]) == Run(Step(Step(s, a), b), [c]);
  }

  lemma TimerGoesOff(s: Supervisor, ms: nat, k: TimerId, world: World)
    requires k in s.queue.timers && s.queue.timers[k].due <= s.clock + ms
    ensures var svc := s.queue.timers[k].svc;
            var s1 := s.(clock := s.clock + ms,
                         queue := s.queue.(timers := s.queue.timers - {k}, pending := s.queue.pending - {svc.name}));
            && Step(Step(s, Tick(ms)), RestartTimerFires(k, world)) == Start(s1, svc, true, true, world)
  {
    hide Start;
  }

  lemma DequeuedKeeps(s: Supervisor, ms: nat, k: TimerId)
    requires Inv(s) && k in s.queue.timers
    ensures var n := s.queue.timers[k].svc.name;
            Inv(s.(clock := s.clock + ms,
                   queue := s.queue.(timers := s.queue.timers - {k}, pending := s.queue.pending - {n})))
  {
    var n := s.queue.timers[k].svc.name;
    var queue := s.queue.(timers := s.queue.timers - {k}, pending := s.queue.pending - {n});
    forall m ensures PendingOk(queue, m) { assert PendingOk(s.queue, m); }
    forall x ensures TimerOk(queue, x) { assert TimerOk(s.queue, x); }
  }

  /** The restart of a crash with budget left: nobody else starts the service, nobody switches it away and the
   *  manager does not close. */
  predicate MayComeBack(s: Supervisor, p: ChildId) {
    && CanExit(s, p) && s.children[p].spawned && s.children[p].svc.name !in s.starts.starting
    && s.rows[s.children[p].row].restarts < MAX_RESTARTS && !s.rows[s.children[p].row].intentionalStop
    && !MayNotStart(s, s.children[p].svc.name)
  }

  lemma QueuedAfterExit(s: Supervisor, p: ChildId)
    requires Inv(s) && MayComeBack(s, p)
    ensures var g, c, k := Step(s, Close(p, false)), s.children[p], s.queue.next;
            && Inv(g) && k in g.queue.timers && g.queue.timers[k].svc == c.svc
            && g.queue.timers[k].due <= g.clock + BACKOFF_BASE_MS * Pow2(s.rows[c.row].restarts)
            && c.svc.name !in g.starts.starting && !MayNotStart(g, c.svc.name) && |g.starts.tasks| == |s.starts.tasks|
            && |g.children| == |s.children| && |g.rows| == |s.rows|
  {
    StepKeeps(s, Close(p, false));
    CrashReads(s, p);
    StepIs(s, Close(p, false));
    hide Step, Inv, OnClose, Pow2;
  }

  lemma RestartGoesOff(g: Supervisor, ms: nat, k: TimerId, first: bool)
    requires Inv(g) && k in g.queue.timers && g.queue.timers[k].due <= g.clock + ms
    requires g.queue.timers[k].svc.name !in g.starts.starting && !MayNotStart(g, g.queue.timers[k].svc.name)
    ensures var s3, t := Step(Step(g, Tick(ms)), RestartTimerFires(k, FINE)), |g.starts.tasks|;
            t < |s3.starts.tasks| && ServiceUp(g, Run(s3, CarryOn(s3, t, AllWell(first))), g.queue.timers[k].svc)
  {
    var svc := g.queue.timers[k].svc;
    var s1 := g.(clock := g.clock + ms,
                 queue := g.queue.(timers := g.queue.timers - {k}, pending := g.queue.pending - {svc.name}));
    DequeuedKeeps(g, ms, k);
    TimerGoesOff(g, ms, k, FINE);
    hide Inv, Step, Start, Run, CarryOn, ServiceUp;
    CallComesUp(s1, svc, true, true, first);
    var s3 := Step(Step(g, Tick(ms)), RestartTimerFires(k, FINE));
    UpSince(g, s1, Run(s3, CarryOn(s3, |g.starts.tasks|, AllWell(first))), svc);
  }

  /** A crash is not the end: with budget left, the restart that it queues brings the service back, with one
   *  new process of the same configuration, as long as nobody starts it first, switches it away or closes the
   *  manager, and all is well when its time has come, be its port free by then or not. */
  lemma CrashComesBack(s0: Supervisor, before: seq<Event>, p: ChildId, first: bool)
    requires Initial(s0) && MayComeBack(Run(s0, before), p)
    ensures var s := Run(s0, before);
            var s3, t := Run(s, CrashAndWait(s, p)), |s.starts.tasks|;
            t < |s3.starts.tasks|
            && ServiceUp(Step(s, Close(p, false)), Run(s3, CarryOn(s3, t, AllWell(first))), s.children[p].svc)
  {
    var s := Run(s0, before);
    var ms := BACKOFF_BASE_MS * Pow2(s.rows[s.children[p].row].restarts);
    ReachableInv(s0, before);
    QueuedAfterExit(s, p);
    ThreeSteps(s, Close(p, false), Tick(ms), RestartTimerFires(s.queue.next, FINE));
    hide Inv, Step, Run, CarryOn, ServiceUp, Pow2;
    RestartGoesOff(Step(s, Close(p, false)), ms, s.queue.next, first);
  }
}
