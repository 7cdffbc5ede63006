/** What a client is told, and what a probe may decide. */
module HealthOutcomes {
  import opened Options
  import opened Supervision
  import opened SupervisionInvariants
  import opened RestartAdvertising
  import opened StepSources
  import opened Readiness
  import opened Displays

  // ---------------------------------------------------------------- the verdict on a row

  /** A client is told that the service is ready exactly when it is up, or asleep behind its on-demand proxy and
   *  nobody insists that it runs; that it has failed exactly when it has crashed with no restart advertised;
   *  and otherwise to wait.  Of a daemon that advertises no restarts it never hears of a failure. */
  lemma VerdictIs(s: Supervisor, n: Name, requireUp: bool)
    requires Registered(s, n)
    ensures var st, seen := Entry(s, n), SnapshotOf(s, n);
            && (Classify(seen, requireUp).ReadyNow? <==> st.health.Up? || (st.status.Idle? && !requireUp))
            && (Classify(seen, requireUp).Failed?
                <==> !st.health.Up? && st.status.Crashed? && st.restartPendingUntil.None?)
            && (Classify(seen, requireUp).StillWaiting?
                <==> !Classify(seen, requireUp).ReadyNow? && !Classify(seen, requireUp).Failed?)
            && !Classify(seen.(restartPendingIn := None), requireUp).Failed?
  {}

  predicate ToldReady(s: Supervisor, n: Name, requireUp: bool) {
    Registered(s, n) && Classify(SnapshotOf(s, n), requireUp).ReadyNow?
  }

  /** What makes a service ready that was not: its own word, a probe of its port that may speak for it, a wake
   *  or a `--once` boot that found it, its environment; or, for who does not insist, that it is put to sleep. */
  predicate MakesReady(s: Supervisor, e: Event, n: Name, requireUp: bool)
    requires Registered(s, n)
  {
    var r, st := s.state[n], Entry(s, n);
    || OwnReadyLine(s, e, r)
    || (Answered(s, e, r) && e.ok && PortMaySpeak(st) && !st.status.Idle?)
    || CalledUp(s, e, r)
    || (e == RemoteProbe(n, true) && st.remote.Some?)
    || (e == IdleStopCall(n) && st.remote.None? && !requireUp)
  }

  /** The entry that the event writes is the one of `n` only if it names `n`. */
  predicate NamesIt(s: Supervisor, e: Event, n: Name) {
    (e.RemoteProbe? || e.IdleStopCall?) && e.name in s.state && n in s.state && s.state[e.name] == s.state[n] ==>
      e.name == n
  }

  lemma NamesTellRows(s: Supervisor, e: Event, n: Name)
    requires Inv(s)
    ensures NamesIt(s, e, n) && StateOk(s.rows, s.state, n)
  {
    assert StateOk(s.rows, s.state, n);
    if e.RemoteProbe? || e.IdleStopCall? { assert StateOk(s.rows, s.state, e.name); }
  }

  lemma ReadyDisplays(s: Supervisor, e: Event, n: Name, requireUp: bool)
    requires Registered(s, n) && NamesIt(s, e, n) && Entry(s, n).svc.name == n
    requires !Entry(s, n).health.Up? && (Entry(s, n).status.Idle? ==> requireUp)
    ensures var (status, health) := Shown(s, e, s.state[n]);
            health.Up? || (status.Idle? && !requireUp) <==> MakesReady(s, e, n, requireUp)
  {
    hide IsRunning, FailureCount, StateOk;
  }

  /** Over any run: a service that is not called ready is called so after a step exactly when the step is one
   *  of these, as long as its row is not replaced. */
  lemma TurnsReadyExactly(s0: Supervisor, before: seq<Event>, e: Event, n: Name, requireUp: bool)
    requires Initial(s0)
    requires var s := Run(s0, before);
             && Registered(s, n) && Registered(Step(s, e), n) && Step(s, e).state[n] == s.state[n]
             && !ToldReady(s, n, requireUp)
    ensures var s := Run(s0, before);
            ToldReady(Step(s, e), n, requireUp) <==> MakesReady(s, e, n, requireUp)
  {
    var s := Run(s0, before);
    ReachableInv(s0, before);
    NamesTellRows(s, e, n);
    hide Run, Step, Classify, SnapshotOf, Inv, Initial, Shown, MakesReady, NamesIt;
    StepShows(s, e, s.state[n]);
    VerdictIs(s, n, requireUp);
    VerdictIs(Step(s, e), n, requireUp);
    ReadyDisplays(s, e, n, requireUp);
  }

  lemma NamesOf(s: Supervisor, n: Name)
    requires Inv(s)
    ensures StateOk(s.rows, s.state, n) && forall m :: StateOk(s.rows, s.state, m)
  {}

  /** From its spawn on, and until it has had its say, a web with a ready pattern that nobody switches or wakes
   *  is never called ready, but for who does not insist while it sleeps, or on the word of a `--once` boot
   *  about a row that this one has replaced. */
  lemma NotReadyWithoutAWord(s0: Supervisor, before: seq<Event>, e: Event, events: seq<Event>, n: Name,
                             requireUp: bool)
    requires Initial(s0)
    requires var s := Step(Run(s0, before), e);
             && Registered(s, n) && |Run(s0, before).rows| <= s.state[n]
             && Silent(s, s.state[n]) && KeptLocal(s, events, s.state[n])
    ensures var s := Step(Run(s0, before), e);
            var f := Run(s, events);
            Registered(f, n) && f.state[n] == s.state[n] && ToldReady(f, n, requireUp) ==>
              || HadItsSay(s, events, s.state[n]) || SaidOfAnother(s, events, s.state[n])
              || (!requireUp && Entry(f, n).status.Idle?)
  {
    var s := Step(Run(s0, before), e);
    var f := Run(s, events);
    WebNeedsAWord(s0, before, e, events, s.state[n]);
    hide Run, Step, HadItsSay, SaidOfAnother, Silent, KeptLocal, Initial;
    if Registered(f, n) { VerdictIs(f, n, requireUp); }
    hide Classify, SnapshotOf;
  }

  lemma WordDisarms(s: Supervisor, p: ChildId, r: RowId)
    requires Inv(s) && OwnReadyLine(s, Line(p, true), r) && r < |s.rows| && !s.rows[r].health.Up?
    ensures r !in OnLine(s, p, true).windows.due
  {
    assert ChildOk(s.rows, s.children, s.procs, p) && DueOk(s.rows, s.windows, r);
  }

  /** A service that says it is ready is heard, whoever asks and whether or not its window is over; and if it was
   *  not up before, no startup timer of it goes off any more. */
  lemma OwnWordIsHeard(s0: Supervisor, before: seq<Event>, p: ChildId, n: Name, requireUp: bool)
    requires Initial(s0)
    requires var s := Run(s0, before); Registered(s, n) && OwnReadyLine(s, Line(p, true), s.state[n])
    ensures var s := Run(s0, before);
            var s' := Step(s, Line(p, true));
            && ToldReady(s', n, requireUp)
            && (!Entry(s, n).health.Up? ==>
                  s'.state[n] !in s'.windows.due && !Entry(s', n).status.Starting?)
  {
    var s := Run(s0, before);
    ReachableInv(s0, before);
    NamesOf(s, n);
    StepShows(s, Line(p, true), s.state[n]);
    if !Entry(s, n).health.Up? { WordDisarms(s, p, s.state[n]); }
    StepIs(s, Line(p, true));
    LineKeepsNames(s, p);
    hide Run, Step, Inv, Initial, OnLine;
    VerdictIs(Step(s, Line(p, true)), n, requireUp);
  }

  lemma LineKeepsNames(s: Supervisor, p: ChildId)
    ensures OnLine(s, p, true).state == s.state && |OnLine(s, p, true).rows| == |s.rows|
  {}

  /** The end of the startup window is nothing to give up for: the client is told to wait on. */
  lemma WindowEndStillWaits(s0: Supervisor, before: seq<Event>, n: Name, requireUp: bool)
    requires Initial(s0)
    requires var s := Run(s0, before);
             && Registered(s, n) && !Entry(s, n).health.Up?
             && OwnWindowEnds(s, StartupTimerFires(s.state[n]), s.state[n])
    ensures var s := Run(s0, before);
            var s' := Step(s, StartupTimerFires(s.state[n]));
            && Registered(s', n) && Entry(s', n).status.TimedOut? && Entry(s', n).health.Down?
            && Classify(SnapshotOf(s', n), requireUp).StillWaiting?
  {
    var s := Run(s0, before);
    ReachableInv(s0, before);
    NamesOf(s, n);
    StepIs(s, StartupTimerFires(s.state[n]));
    StepShows(s, StartupTimerFires(s.state[n]), s.state[n]);
    hide Run, Step, Inv, Initial;
    VerdictIs(Step(s, StartupTimerFires(s.state[n])), n, requireUp);
  }

  // ---------------------------------------------------------------- when a service is probed

  /** A service is still given the time that its configuration asks for. */
  predicate Young(s: Supervisor, st: ProcessState) {
    && st.svc.startPeriodMs > 0 && st.startedAt.Some?
    && s.clock < st.startedAt.value + st.svc.startPeriodMs
  }

  /** What a round of probes needs before it probes the service. */
  predicate Probeable(s: Supervisor, n: Name) {
    && Registered(s, n) && Entry(s, n).remote.None? && IsRunning(s, Entry(s, n)) && !Entry(s, n).status.Idle?
    && !Young(s, Entry(s, n))
  }

  /** The open probes, as far as anybody can tell them apart. */
  predicate ProbesAre(s: Supervisor, e: Event, s': Supervisor) {
    if e.PollBegin? && Probeable(s, e.name) then s'.polls == s.polls + [Poll(e.name, s.state[e.name], true)]
    else if e.PollResult? && Polling(s, e.poll) then
      s'.polls == s.polls[e.poll := s.polls[e.poll].(open := false)]
    else s'.polls == s.polls
  }

  lemma RoundProbes(s: Supervisor, n: Name, k: nat, ok: bool)
    ensures ProbesAre(s, PollBegin(n), OnPollBegin(s, n)) && ProbesAre(s, PollResult(k, ok), OnPollResult(s, k, ok))
  {
    hide CountProbe, FailureCount, DeriveHealth;
  }

  lemma CommitsProbeNobody(s: Supervisor, r: RowId, svc: ServiceConfig, env: string)
    ensures OnRemoteCommit(s, r, svc, env).polls == s.polls && OnLocalCommit(s, r, svc).polls == s.polls
  {}

  lemma ProbesStay(s: Supervisor, e: Event, s': Supervisor)
    requires !e.PollBegin? && !e.PollResult? && s'.polls == s.polls
    ensures ProbesAre(s, e, s')
  {}

  /** A probe begins in a round of probes only, and there exactly for a registered local service that runs, is
   *  not asleep, and whose start period is over. */
  lemma ProbesBeginExactly(s: Supervisor, e: Event)
    ensures ProbesAre(s, e, Step(s, e))
  {
    hide *;
    StepIs(s, e);
    StopsMeans(e);
    if e.PollBegin? { RoundProbes(s, e.name, 0, true); }
    else if e.PollResult? { RoundProbes(s, "", e.poll, e.ok); }
    else {
      if Stops(e) || e.ForceStopCall? || e.CleanupCall? || e.GraceOver? { SentKeepsPolls(s, e); }
      else if e.RemoteCommit? { CommitsProbeNobody(s, e.row, e.svc, e.env); }
      else if e.LocalCommit? { CommitsProbeNobody(s, e.row, e.svc, ""); }
      else if e.Tick? { TimeGoesOn(s, e.ms); }
      else { QuietStepsGoOn(s, e); GoingOnKeepsPolls(s, Step(s, e)); }
      ProbesStay(s, e, Step(s, e));
    }
  }

  // ---------------------------------------------------------------- no young service is judged by its port

  /** A probe is of a row that is no longer young, or is served from an environment by now. */
  predicate Ripe(s: Supervisor, r: RowId) {
    r < |s.rows| && (s.rows[r].remote.Some? || !Young(s, s.rows[r]))
  }

  ghost predicate PollsRipe(s: Supervisor) {
    forall k :: 0 <= k < |s.polls| ==> Ripe(s, s.polls[k].row)
  }

  lemma RipenOn(s: Supervisor, s': Supervisor)
    requires PollsRipe(s) && RowsGoOn(s, s') && s'.polls == s.polls && s.clock <= s'.clock
    ensures PollsRipe(s')
  {}

  lemma NewProbeIsRipe(s: Supervisor, n: Name)
    requires PollsRipe(s)
    ensures PollsRipe(OnPollBegin(s, n))
  {
    RoundProbes(s, n, 0, true);
    RoundGoesOn(s, n);
    hide OnPollBegin;
  }

  lemma AnswerStaysRipe(s: Supervisor, k: nat, ok: bool)
    requires PollsRipe(s)
    ensures PollsRipe(OnPollResult(s, k, ok))
  {
    RoundProbes(s, "", k, ok);
    AnswerGoesOn(s, k, ok);
    hide OnPollResult;
  }

  lemma SwitchStaysRipe(s: Supervisor, r: RowId, svc: ServiceConfig, env: string)
    requires PollsRipe(s)
    ensures PollsRipe(OnRemoteCommit(s, r, svc, env)) && PollsRipe(OnLocalCommit(s, r, svc))
  {}

  lemma StepStaysRipe(s: Supervisor, e: Event)
    requires PollsRipe(s)
    ensures PollsRipe(Step(s, e))
  {
    hide *;
    StepIs(s, e);
    if e.PollBegin? { NewProbeIsRipe(s, e.name); }
    else if e.PollResult? { AnswerStaysRipe(s, e.poll, e.ok); }
    else if e.RemoteCommit? { SwitchStaysRipe(s, e.row, e.svc, e.env); }
    else if e.LocalCommit? { SwitchStaysRipe(s, e.row, e.svc, ""); }
    else {
      StepRowsGoOn(s, e);
      ProbesBeginExactly(s, e);
      ProbesLeft(s, e, Step(s, e));
      RipenOn(s, Step(s, e));
    }
  }

  lemma ProbesLeft(s: Supervisor, e: Event, s': Supervisor)
    requires !e.PollBegin? && !e.PollResult? && ProbesAre(s, e, s')
    ensures s'.polls == s.polls
  {}

  lemma {:induction false} RunStaysRipe(s: Supervisor, events: seq<Event>)
    requires PollsRipe(s)
    ensures PollsRipe(Run(s, events))
    decreases |events|
  {
    if events != [] {
      hide Step, PollsRipe;
      StepStaysRipe(s, events[0]);
      RunStaysRipe(Step(s, events[0]), events[1..]);
    }
  }

  /** Inside its start period a local service is not judged by its port, in any run: no probe of it begins, no
   *  answer of one is written down, no failure is counted for it, and no answer changes what it shows. */
  lemma YoungIsNotJudged(s0: Supervisor, before: seq<Event>, e: Event, n: Name)
    requires Initial(s0)
    requires var s := Run(s0, before);
             Registered(s, n) && Entry(s, n).remote.None? && Young(s, Entry(s, n))
    ensures var s := Run(s0, before);
            var s' := Step(s, e);
            && (e == PollBegin(n) ==> s'.polls == s.polls)
            && !Accepted(s, e, n) && FailureCount(s', n) <= FailureCount(s, n)
            && (e.PollResult? ==> s.state[n] < |s'.rows| && s'.rows[s.state[n]] == Entry(s, n))
  {
    var s := Run(s0, before);
    ReachableInv(s0, before);
    NamesOf(s, n);
    assert PollsRipe(s0);
    RunStaysRipe(s0, before);
    ProbesBeginExactly(s, e);
    hide Run, Step, Inv, Initial;
    YoungAnswers(s, e, n);
    NotCounted(s, e, n);
  }

  lemma YoungAnswers(s: Supervisor, e: Event, n: Name)
    requires Inv(s) && PollsRipe(s)
    requires Registered(s, n) && Entry(s, n).remote.None? && Young(s, Entry(s, n))
    ensures !Accepted(s, e, n)
    ensures e.PollResult? ==> s.state[n] < |Step(s, e).rows| && Step(s, e).rows[s.state[n]] == Entry(s, n)
  {
    if e.PollResult? {
      StepIs(s, e);
      if Polling(s, e.poll) { assert Ripe(s, s.polls[e.poll].row); }
      hide Step, Inv, CountProbe;
    }
  }

  lemma NotCounted(s: Supervisor, e: Event, n: Name)
    requires Inv(s) && !Accepted(s, e, n)
    ensures FailureCount(Step(s, e), n) <= FailureCount(s, n)
  {
    hide Step, Inv, OnPollResult, RemoveService;
    StepIs(s, e);
    if e.PollResult? { AnswerCounts(s, e.poll, e.ok, n); }
    else if e.RemoveCall? { RemoveMoves(s, e.name, 0); }
    else { FailuresMove(s, e); }
  }

  lemma AnswerCounts(s: Supervisor, k: nat, ok: bool, n: Name)
    requires Inv(s) && !Accepted(s, PollResult(k, ok), n)
    ensures FailureCount(OnPollResult(s, k, ok), n) <= FailureCount(s, n)
  {
    if Polling(s, k) { assert PollOk(s.rows, s.polls, k); }
    hide Inv, Probed;
  }
}
