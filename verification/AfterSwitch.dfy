/** What happens to a service after it was switched to an environment: the late events of its old
 *  process, and the starts that must not happen. */
module AfterSwitch {
  import opened Options
  import opened Supervision
  import opened SupervisionInvariants
  import opened SupervisionHistory
  import opened Provenance

  // ---------------------------------------------------------------- late events

  /** What a client sees of the row. */
  datatype Face = Face(status: Status, health: Health, remote: Option<string>)

  function FaceOf(s: Supervisor, r: RowId): Face
    requires r < |s.rows|
  {
    Face(s.rows[r].status, s.rows[r].health, s.rows[r].remote)
  }

  /** A row that an environment serves: kept, running, and without its process. */
  predicate Switched(s: Supervisor, r: RowId) {
    && r < |s.rows| && s.rows[r].remote.Some? && s.rows[r].proc.None?
    && s.rows[r].status.Running? && !s.rows[r].health.Asleep?
    && s.rows[r].svc.name in s.state && s.state[s.rows[r].svc.name] == r
  }

  /** The row right after a switch to an environment. */
  predicate JustSwitched(s: Supervisor, r: RowId) {
    Switched(s, r) && s.rows[r].health.Waiting?
  }

  /** Something that began while the row was local comes to its end: output or exit of the process that
   *  the row was made for, its startup timer, the answer of a probe of it, an on-demand start of it, or
   *  the boot that started it. */
  predicate OldEvent(s: Supervisor, e: Event, r: RowId)
    requires r < |s.rows|
  {
    || ((e.Line? || e.Close?) && e.child < |s.children| && s.children[e.child].row == r)
    || (e.StartupTimerFires? && e.row == r)
    || (e.PollResult? && Polling(s, e.poll) && s.polls[e.poll].row == r)
    || ((e.WakeSettles? || e.WakeGivesUp?) && IsWakeOf(s, e.wake, s.rows[r].svc.name))
    || (e.BootMarksRunning? && e.name == s.rows[r].svc.name)
  }

  /** That, the passing of time, or the environment's own probe. */
  predicate LateEvent(s: Supervisor, e: Event, r: RowId) {
    r < |s.rows| && (OldEvent(s, e, r) || e.Tick? || (e.RemoteProbe? && e.name == s.rows[r].svc.name))
  }

  predicate LateEvents(s: Supervisor, events: seq<Event>, r: RowId)
    decreases |events|
  {
    events != [] ==> LateEvent(s, events[0], r) && LateEvents(Step(s, events[0]), events[1..], r)
  }

  /** What the environment's probe has said last. */
  function HealthAfter(e: Event, health: Health): Health {
    if e.RemoteProbe? then (if e.reachable then Up else Down) else health
  }

  function HealthSaid(events: seq<Event>, health: Health): Health
    decreases |events|
  {
    if events == [] then health else HealthSaid(events[1..], HealthAfter(events[0], health))
  }

  // ---------------------------------------------------------------- what is left of the local service

  function OpenProbes(s: Supervisor, r: RowId): set<nat> {
    set k: nat | k < |s.polls| && s.polls[k].open && s.polls[k].row == r
  }

  /** No probe of the row is under way, or none that could change it: the ready pattern keeps their port
   *  from being enough, and they are too few to fail it. */
  predicate ProbesSpent(s: Supervisor, r: RowId)
    requires r < |s.rows|
  {
    var svc := s.rows[r].svc;
    || OpenProbes(s, r) == {}
    || (svc.hasReadyPattern && FailureCount(s, svc.name) + |OpenProbes(s, r)| < svc.failureThreshold)
  }

  /** The old process is gone, or was spawned, told to stop and has no ready pattern to match. */
  predicate ProcessSpent(s: Supervisor, r: RowId)
    requires r < |s.rows|
  {
    s.rows[r].owned.Some? && s.rows[r].owned.value < |s.children| ==>
      var c := s.children[s.rows[r].owned.value];
      c.exited || (c.spawned && s.rows[r].intentionalStop && !c.svc.hasReadyPattern)
  }

  /** Nothing is left that could write over the row: no process, no armed startup timer, no probe and no
   *  on-demand start under way. */
  ghost predicate Spent(s: Supervisor, r: RowId)
    requires r < |s.rows|
  {
    && r !in s.windows.due && ProcessSpent(s, r) && ProbesSpent(s, r)
    && forall w :: !IsWakeOf(s, w, s.rows[r].svc.name)
  }

  /** The step left the row as it should be, and what is left of the local service spent. */
  ghost predicate StaysSpent(s: Supervisor, e: Event, s': Supervisor, r: RowId)
    requires r < |s.rows|
  {
    && Switched(s', r) && Spent(s', r)
    && FaceOf(s', r) == Face(Running, HealthAfter(e, s.rows[r].health), s.rows[r].remote)
  }

  lemma SpentOutput(s: Supervisor, e: Event, r: RowId)
    requires Inv(s) && Switched(s, r) && Spent(s, r) && LateEvent(s, e, r) && (e.Line? || e.StartupTimerFires?)
    ensures Step(s, e) == s
  {
    StepIs(s, e);
    if e.Line? { assert ChildOk(s.rows, s.children, s.procs, e.child); }
    hide Step;
  }

  lemma SpentClose(s: Supervisor, p: ChildId, cleanExit: bool, r: RowId)
    requires Inv(s) && Switched(s, r) && Spent(s, r) && p < |s.children| && s.children[p].row == r
    ensures StaysSpent(s, Close(p, cleanExit), OnClose(s, p, cleanExit), r)
  {
    assert ChildOk(s.rows, s.children, s.procs, p);
    if !s.children[p].exited {
      var s1 := ChildGone(s, p);
      assert OnClose(s, p, cleanExit) == SetRow(s1, r, s1.rows[r].(intentionalStop := false));
      assert s1.wakes == s.wakes && s1.polls == s.polls;
      hide OnClose;
      var s' := SetRow(s1, r, s1.rows[r].(intentionalStop := false));
      forall w ensures !IsWakeOf(s', w, s'.rows[r].svc.name) { assert !IsWakeOf(s, w, s.rows[r].svc.name); }
      assert OpenProbes(s', r) == OpenProbes(s, r);
    }
  }

  lemma AnswerClosesOne(s: Supervisor, k: nat, ok: bool, r: RowId)
    requires Polling(s, k) && s.polls[k].row == r
    ensures k in OpenProbes(s, r) && OpenProbes(OnPollResult(s, k, ok), r) == OpenProbes(s, r) - {k}
    ensures |OpenProbes(OnPollResult(s, k, ok), r)| == |OpenProbes(s, r)| - 1
  {
    hide StillProbed, Supervision.Probed, CountProbe;
    assert OpenProbes(OnPollResult(s, k, ok), r) == OpenProbes(s, r) - {k};
  }

  /** The answer of a probe of a row that an environment serves. */
  lemma LateAnswer(s: Supervisor, k: nat, ok: bool, r: RowId)
    requires Inv(s) && Switched(s, r) && Polling(s, k) && s.polls[k].row == r
    ensures var s' := OnPollResult(s, k, ok);
            var svc := s.rows[r].svc;
            && s' == s.(polls := s'.polls, tallies := s'.tallies, rows := s'.rows) && |s'.rows| == |s.rows|
            && (if ok then
                  FailureCount(s', svc.name) == 0
                  && s'.rows[r] == if svc.hasReadyPattern && !s.rows[r].health.Up? then s.rows[r]
                                   else s.rows[r].(health := Up)
                else
                  FailureCount(s', svc.name) == FailureCount(s, svc.name) + 1
                  && s'.rows[r] == if FailureCount(s, svc.name) + 1 < svc.failureThreshold then s.rows[r]
                                   else s.rows[r].(health := Down))
  {
    assert PollOk(s.rows, s.polls, k);
  }

  lemma SpentAnswer(s: Supervisor, k: nat, ok: bool, r: RowId)
    requires Inv(s) && Switched(s, r) && Spent(s, r) && Polling(s, k) && s.polls[k].row == r
    ensures StaysSpent(s, PollResult(k, ok), OnPollResult(s, k, ok), r)
  {
    LateAnswer(s, k, ok, r);
    AnswerClosesOne(s, k, ok, r);
    var s' := OnPollResult(s, k, ok);
    hide OnPollResult, Inv;
    forall w ensures !IsWakeOf(s', w, s'.rows[r].svc.name) { assert !IsWakeOf(s, w, s.rows[r].svc.name); }
  }

  lemma SpentWrite(s: Supervisor, n: Name, reachable: bool, ms: nat, r: RowId)
    requires Switched(s, r) && Spent(s, r)
    ensures n == s.rows[r].svc.name ==>
              && StaysSpent(s, BootMarksRunning(n), OnBootMarksRunning(s, n), r)
              && StaysSpent(s, RemoteProbe(n, reachable), OnRemoteProbe(s, n, reachable), r)
    ensures StaysSpent(s, Tick(ms), OnTick(s, ms), r)
  {
    var name := s.rows[r].svc.name;
    var a, b, c := OnBootMarksRunning(s, name), OnRemoteProbe(s, name, reachable), OnTick(s, ms);
    assert OpenProbes(a, r) == OpenProbes(s, r) && OpenProbes(b, r) == OpenProbes(s, r)
        && OpenProbes(c, r) == OpenProbes(s, r);
    forall w ensures !IsWakeOf(a, w, name) && !IsWakeOf(b, w, name) && !IsWakeOf(c, w, name) {
      assert !IsWakeOf(s, w, name);
    }
  }

  lemma NoLateWake(s: Supervisor, e: Event, r: RowId)
    requires Switched(s, r) && Spent(s, r) && LateEvent(s, e, r)
    ensures !e.WakeSettles? && !e.WakeGivesUp?
  {}

  lemma LateEventsAre(s: Supervisor, e: Event, r: RowId)
    requires LateEvent(s, e, r)
    ensures r < |s.rows|
    ensures || e.Line? || e.StartupTimerFires? || e.Tick? || e.WakeSettles? || e.WakeGivesUp?
            || (e.Close? && e.child < |s.children| && s.children[e.child].row == r)
            || (e.PollResult? && Polling(s, e.poll) && s.polls[e.poll].row == r)
            || ((e.BootMarksRunning? || e.RemoteProbe?) && e.name == s.rows[r].svc.name)
  {}

  lemma Unchanged(s: Supervisor, e: Event, r: RowId)
    requires Switched(s, r) && Spent(s, r) && !e.RemoteProbe?
    ensures StaysSpent(s, e, s, r)
  {}

  lemma SpentStep(s: Supervisor, e: Event, r: RowId)
    requires Inv(s) && Switched(s, r) && Spent(s, r) && LateEvent(s, e, r)
    ensures StaysSpent(s, e, Step(s, e), r)
  {
    hide *;
    LateEventsAre(s, e, r);
    StepIs(s, e);
    NoLateWake(s, e, r);
    if e.Line? || e.StartupTimerFires? { SpentOutput(s, e, r); Unchanged(s, e, r); }
    else if e.Close? { SpentClose(s, e.child, e.cleanExit, r); }
    else if e.PollResult? { SpentAnswer(s, e.poll, e.ok, r); }
    else if e.BootMarksRunning? { SpentWrite(s, e.name, true, 0, r); }
    else if e.RemoteProbe? { SpentWrite(s, e.name, e.reachable, 0, r); }
    else { SpentWrite(s, "", true, e.ms, r); }
  }

  /** What is spent stays spent: the row shows what the environment's probe said last. */
  lemma {:induction false} SpentStaysQuiet(s: Supervisor, events: seq<Event>, r: RowId)
    requires Inv(s) && Switched(s, r) && Spent(s, r) && LateEvents(s, events, r)
    ensures r < |Run(s, events).rows|
    ensures FaceOf(Run(s, events), r) == Face(Running, HealthSaid(events, s.rows[r].health), s.rows[r].remote)
    decreases |events|
  {
    if events != [] {
      assert r < |s.rows|;
      hide Inv, Step, Spent, LateEvent;
      StepKeeps(s, events[0]);
      SpentStep(s, events[0], r);
      SpentStaysQuiet(Step(s, events[0]), events[1..], r);
    } else {
      assert r < |s.rows|;
    }
  }

  // ---------------------------------------------------------------- what is not spent

  /** Late events after which the row shows something the environment's probe did not say. */
  predicate Disturbs(s: Supervisor, events: seq<Event>, r: RowId)
    requires r < |s.rows|
  {
    && LateEvents(s, events, r) && r < |Run(s, events).rows|
    && FaceOf(Run(s, events), r) != Face(Running, HealthSaid(events, s.rows[r].health), s.rows[r].remote)
  }

  lemma OneDisturbs(s: Supervisor, e: Event, r: RowId)
    requires JustSwitched(s, r) && LateEvent(s, e, r) && !e.RemoteProbe?
    requires r < |Step(s, e).rows| && FaceOf(Step(s, e), r) != FaceOf(s, r)
    ensures Disturbs(s, [e], r)
  {
    hide Step, LateEvent;
    var all, rest := [e], [e][1..];
    assert rest == [] && all[0] == e && all[1..] == rest;
    assert LateEvents(Step(s, e), rest, r);
    assert LateEvents(s, all, r);
    assert Run(Step(s, e), rest) == Step(s, e);
    assert Run(s, all) == Step(s, e);
    assert HealthSaid(rest, s.rows[r].health) == s.rows[r].health;
    assert HealthSaid(all, s.rows[r].health) == s.rows[r].health;
  }

  lemma OneMoreDisturbs(s: Supervisor, e: Event, rest: seq<Event>, r: RowId)
    requires JustSwitched(s, r) && LateEvent(s, e, r) && !e.RemoteProbe?
    requires r < |Step(s, e).rows| && FaceOf(Step(s, e), r) == FaceOf(s, r) && Disturbs(Step(s, e), rest, r)
    ensures Disturbs(s, [e] + rest, r)
  {
    hide Step, LateEvent;
    assert ([e] + rest)[1..] == rest;
  }

  lemma ShowsWaiting(s: Supervisor, r: RowId)
    requires JustSwitched(s, r)
    ensures r < |s.rows| && FaceOf(s, r) == Face(Running, Waiting, s.rows[r].remote)
  {}

  /** The startup window ends in time. */
  function WindowEnds(s: Supervisor, r: RowId): seq<Event>
    requires r in s.windows.due
  {
    [Tick(if s.windows.due[r] <= s.clock then 0 else s.windows.due[r] - s.clock), StartupTimerFires(r)]
  }

  lemma TimerTimesOut(s: Supervisor, r: RowId)
    requires r in s.windows.due && s.windows.due[r] <= s.clock && JustSwitched(s, r)
    ensures var f := Step(s, StartupTimerFires(r)); r < |f.rows| && f.rows[r].status.TimedOut?
  {
    hide Step;
    StepIs(s, StartupTimerFires(r));
  }

  lemma WaitTakesTime(s: Supervisor, ms: nat, r: RowId)
    requires JustSwitched(s, r)
    ensures Step(s, Tick(ms)) == s.(clock := s.clock + ms) && JustSwitched(s.(clock := s.clock + ms), r)
    ensures LateEvent(s, Tick(ms), r) && LateEvent(s, StartupTimerFires(r), r)
  {}

  lemma WindowDisturbs(s: Supervisor, r: RowId)
    requires JustSwitched(s, r) && r in s.windows.due
    ensures r < |s.rows| && Disturbs(s, WindowEnds(s, r), r)
    ensures var f := Run(s, WindowEnds(s, r)); r < |f.rows| && f.rows[r].status.TimedOut?
  {
    ShowsWaiting(s, r);
    var ms := if s.windows.due[r] <= s.clock then 0 else s.windows.due[r] - s.clock;
    var s1 := s.(clock := s.clock + ms);
    assert WindowEnds(s, r) == [Tick(ms)] + [StartupTimerFires(r)];
    hide Step, LateEvent, JustSwitched, Disturbs, WindowEnds;
    WaitTakesTime(s, ms, r);
    WaitTakesTime(s1, 0, r);
    TimerTimesOut(s1, r);
    OneDisturbs(s1, StartupTimerFires(r), r);
    OneMoreDisturbs(s, Tick(ms), [StartupTimerFires(r)], r);
    TwoEventsRun(s, Tick(ms), StartupTimerFires(r));
  }

  lemma TwoEventsRun(s: Supervisor, a: Event, b: Event)
    ensures Run(s, [a] + [b]) == Step(Step(s, a), b)
  {
    hide Step;
    var rest := [b][1..];
    assert ([a] + [b])[1..] == [b] && rest == [];
    assert Run(Step(s, a), [b]) == Run(Step(Step(s, a), b), rest);
  }

  lemma CloseDisturbs(s: Supervisor, p: ChildId)
    requires p < |s.children| && !s.children[p].exited && s.children[p].row < |s.rows|
    requires !s.children[p].spawned || !s.rows[s.children[p].row].intentionalStop
    ensures var s' := OnClose(s, p, true); var r := s.children[p].row;
            r < |s'.rows| && (s'.rows[r].status.Crashed? || s'.rows[r].status.Stopped?)
  {}

  lemma LineDisturbs(s: Supervisor, p: ChildId)
    requires p < |s.children| && !s.children[p].exited && s.children[p].row < |s.rows|
    requires s.children[p].svc.hasReadyPattern
    ensures var s' := OnLine(s, p, true); var r := s.children[p].row; r < |s'.rows| && s'.rows[r].health.Up?
  {}

  lemma ProcessDisturbs(s: Supervisor, r: RowId) returns (events: seq<Event>)
    requires Inv(s) && JustSwitched(s, r) && !ProcessSpent(s, r)
    ensures r < |s.rows| && Disturbs(s, events, r)
  {
    ShowsWaiting(s, r);
    assert RowOk(s.rows, s.children, r);
    var p := s.rows[r].owned.value;
    var e := if s.children[p].spawned && s.rows[r].intentionalStop then Line(p, true) else Close(p, true);
    assert LateEvent(s, e, r);
    hide Step, OnLine, OnClose, Disturbs, Inv, LateEvent;
    StepIs(s, e);
    if e.Line? { LineDisturbs(s, p); } else { CloseDisturbs(s, p); }
    OneDisturbs(s, e, r);
    events := [e];
  }

  lemma WakeDisturbs(s: Supervisor, w: nat, r: RowId)
    requires JustSwitched(s, r) && r < |s.rows| && IsWakeOf(s, w, s.rows[r].svc.name)
    ensures Disturbs(s, [WakeSettles(w, true)], r)
  {
    ShowsWaiting(s, r);
    hide Step, Disturbs;
    StepIs(s, WakeSettles(w, true));
    OneDisturbs(s, WakeSettles(w, true), r);
  }

  /** One answer is enough, or as many failures as are missing to the threshold. */
  lemma {:induction false} AnswersDisturb(s: Supervisor, r: RowId) returns (events: seq<Event>)
    requires Inv(s) && JustSwitched(s, r) && !ProbesSpent(s, r)
    ensures r < |s.rows| && Disturbs(s, events, r)
    decreases |OpenProbes(s, r)|
  {
    ShowsWaiting(s, r);
    var k: nat :| k in OpenProbes(s, r);
    var svc := s.rows[r].svc;
    var e := PollResult(k, !svc.hasReadyPattern);
    assert LateEvent(s, e, r);
    LateAnswer(s, k, !svc.hasReadyPattern, r);
    AnswerClosesOne(s, k, !svc.hasReadyPattern, r);
    StepIs(s, e);
    StepKeeps(s, e);
    hide Step, OnPollResult, Inv, LateEvent, Disturbs, OpenProbes, FailureCount;
    if svc.hasReadyPattern && FailureCount(s, svc.name) + 1 < svc.failureThreshold {
      var rest := AnswersDisturb(Step(s, e), r);
      OneMoreDisturbs(s, e, rest, r);
      events := [e] + rest;
    } else {
      OneDisturbs(s, e, r);
      events := [e];
    }
  }

  lemma Disturbed(s: Supervisor, r: RowId) returns (events: seq<Event>)
    requires Inv(s) && JustSwitched(s, r) && r < |s.rows| && !Spent(s, r)
    ensures Disturbs(s, events, r)
  {
    hide Inv, JustSwitched, Disturbs, ProbesSpent, ProcessSpent, IsWakeOf;
    if r in s.windows.due {
      WindowDisturbs(s, r);
      events := WindowEnds(s, r);
    } else if !ProcessSpent(s, r) {
      events := ProcessDisturbs(s, r);
    } else if !ProbesSpent(s, r) {
      events := AnswersDisturb(s, r);
    } else {
      var w :| IsWakeOf(s, w, s.rows[r].svc.name);
      WakeDisturbs(s, w, r);
      events := [WakeSettles(w, true)];
    }
  }

  /** Whatever was begun while the service was local: the row shows what the environment's probe says. */
  ghost predicate QuietForGood(s: Supervisor, r: RowId)
    requires r < |s.rows|
  {
    forall events :: LateEvents(s, events, r) ==>
      && r < |Run(s, events).rows|
      && FaceOf(Run(s, events), r) == Face(Running, HealthSaid(events, s.rows[r].health), s.rows[r].remote)
  }

  /** After a switch to an environment the row is safe from what was begun before exactly when all of it is
   *  spent: a draining process that still prints its ready line, a spawn whose failure has not been
   *  reported, an armed startup timer, the answer of a probe under way or the end of an on-demand start
   *  will write over it. */
  lemma QuietExactlyWhenSpent(s: Supervisor, r: RowId)
    requires Inv(s) && JustSwitched(s, r)
    ensures r < |s.rows| && (QuietForGood(s, r) <==> Spent(s, r))
  {
    ShowsWaiting(s, r);
    if Spent(s, r) {
      forall events | LateEvents(s, events, r)
        ensures r < |Run(s, events).rows|
        ensures FaceOf(Run(s, events), r) == Face(Running, HealthSaid(events, s.rows[r].health), s.rows[r].remote)
      {
        hide Step, Run, Inv, Spent, LateEvents;
        SpentStaysQuiet(s, events, r);
      }
    } else {
      hide Step, Run, Inv, Spent, LateEvents;
      var events := Disturbed(s, r);
      assert LateEvents(s, events, r) && Disturbs(s, events, r);
    }
  }

  // ---------------------------------------------------------------- no start of a remote service

  /** The name is served from an environment, and no start of it is in flight. */
  predicate ServedRemotely(s: Supervisor, n: Name) {
    Registered(s, n) && Entry(s, n).remote.Some? && n !in s.starts.starting
  }

  /** The name is taken out of the environment's hands: it is removed, registered anew or brought back. */
  predicate TakesBack(s: Supervisor, e: Event, n: Name) {
    || (e.RemoveCall? && e.name == n)
    || (e.RegisterLazyCall? && e.svc.name == n)
    || (e.RegisterRemoteCall? && e.svc.name == n)
    || (e.LocalCommit? && n in s.state && s.state[n] == e.row)
  }

  predicate LeftThere(s: Supervisor, events: seq<Event>, n: Name)
    decreases |events|
  {
    events != [] ==> !TakesBack(s, events[0], n) && LeftThere(Step(s, events[0]), events[1..], n)
  }

  /** Still served remotely by the same row, and no process of the name has been added. */
  ghost predicate KeepsRemote(s: Supervisor, s': Supervisor, n: Name)
    requires ServedRemotely(s, n)
  {
    && ServedRemotely(s', n) && s'.state[n] == s.state[n]
    && |s.children| <= |s'.children| && forall p :: |s.children| <= p < |s'.children| ==> s'.children[p].svc.name != n
  }

  /** What an event could bring in under the name, the spawner refuses. */
  lemma NothingStarted(s: Supervisor, e: Event, n: Name)
    requires Inv(s) && ServedRemotely(s, n) && !TakesBack(s, e, n) && !e.RemoteCommit? && !e.LocalCommit?
    ensures Sources(s, e, n).started == {} && !Sources(s, e, n).dropped
  {
    if e.PortResult? || e.BuildResult? { assert TaskOk(s.starts, e.task); }
  }

  lemma FromKeepsRemote(s: Supervisor, s': Supervisor, n: Name, src: Source)
    requires ServedRemotely(s, n) && From(s, s', n, src) && src.started == {} && !src.dropped
    requires Inv(s) && Inv(s')
    ensures KeepsRemote(s, s', n)
  {
    assert StateOk(s.rows, s.state, n) && RowFrom(s, s', n, src, s.state[n]) && StartingOk(s'.starts, n);
    assert n in s'.starts.starting ==> InFlightOf(s', s'.starts.starting[n], n);
    forall t ensures !InFlightOf(s', t, n) {
      assert TaskFrom(s, s', n, src, t) && TaskOk(s.starts, t);
    }
    if |s.children| > 0 { assert SameChild(s, s', |s.children| - 1); }
    forall p | |s.children| <= p < |s'.children|
      ensures s'.children[p].svc.name != n
    {
      assert SpawnFrom(s, s', n, src, p);
    }
  }

  lemma CommitKeepsRemote(s: Supervisor, r: RowId, svc: ServiceConfig, env: string, n: Name)
    requires ServedRemotely(s, n)
    ensures KeepsRemote(s, OnRemoteCommit(s, r, svc, env), n)
    ensures s.state[n] != r ==> KeepsRemote(s, OnLocalCommit(s, r, svc), n)
  {}

  lemma StepKeepsRemote(s: Supervisor, e: Event, n: Name)
    requires Inv(s) && ServedRemotely(s, n) && !TakesBack(s, e, n)
    ensures KeepsRemote(s, Step(s, e), n)
  {
    var local := e.LocalCommit? && s.state[n] != e.row;
    assert e.LocalCommit? ==> local;
    hide *;
    StepIs(s, e);
    if e.RemoteCommit? { CommitKeepsRemote(s, e.row, e.svc, e.env, n); }
    else if e.LocalCommit? { CommitKeepsRemote(s, e.row, e.svc, "", n); }
    else {
      NothingStarted(s, e, n);
      StepComesFrom(s, e, n);
      StepKeeps(s, e);
      FromKeepsRemote(s, Step(s, e), n, Sources(s, e, n));
    }
  }

  /** While a service is served from an environment and none of its starts was in flight, nothing
   *  spawns it and nothing replaces its row: not a start, a restart, a timer or a crash. */
  lemma {:induction false} RemoteIsNeverSpawned(s: Supervisor, events: seq<Event>, n: Name)
    requires Inv(s) && ServedRemotely(s, n) && LeftThere(s, events, n)
    ensures KeepsRemote(s, Run(s, events), n)
    decreases |events|
  {
    if events != [] {
      var s1 := Step(s, events[0]);
      StepKeeps(s, events[0]);
      StepKeepsRemote(s, events[0], n);
      RunAges(s1, events[1..]);
      hide Inv, Step, Ages, TakesBack;
      RemoteIsNeverSpawned(s1, events[1..], n);
      var f := Run(s, events);
      forall p | |s.children| <= p < |f.children|
        ensures f.children[p].svc.name != n
      {
        if p < |s1.children| { SvcKept(s1, f, p); }
      }
    }
  }

  lemma SvcKept(a: Supervisor, b: Supervisor, p: ChildId)
    requires Ages(a, b) && p < |a.children|
    ensures p < |b.children| && b.children[p].svc == a.children[p].svc
  {
    assert ChildAged(a.children, b.children, p);
  }
}
