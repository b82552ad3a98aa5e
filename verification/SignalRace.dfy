/** Two runs of the system in which a command group is signalled although nobody ever stored a
    cancellation of its run, and with them the exact condition of the promise that a request comes
    first (`src/application/cancel.rs`). */
module SignalRace {
  import opened Wrappers
  import opened Primitives
  import opened Transitions
  import opened Jobs
  import opened Runs
  import opened Store
  import opened Protocol
  import opened RunMoves
  import opened RunSafety
  import opened SignalSafety
  import Group = GroupCancellation

  const JOB := JobSnapshot(4, 1, 0, 0, Scheduled, OneShotRelative(1, NANOS_PER_SECOND), Skip, NANOS_PER_SECOND)
  const MONITOR := ProcessIdentity("b", 8, 9, 8)
  const COMMAND := ProcessIdentity("b", 10, 9, 10)
  const FACTS := StartFacts(0, MONITOR, COMMAND, "o", "e")
  const CLAIMED := NewRun(5, 4, 1, NANOS_PER_SECOND, 0, 6)
  const RUNNING :=
    Run(5, 4, 1, NANOS_PER_SECOND, 0, Some(0), None, RunRunning, 6, Some(MONITOR), Some(COMMAND), None,
        Some("o"), Some("e"))
  const LOST := RunOutcome.Interrupted("child wait failed")
  const FAILED := RunOutcome.Failed("m")

  /** The run with its process, finished with an outcome that does not mean the process is gone. */
  function Finished(outcome: RunOutcome): (r: Run) {
    RUNNING.(state := OutcomeState(outcome), finishedAt := Some(0), outcome := Some(outcome))
  }

  /** The clock stands still, waiting fails, the leader is alive and signals are delivered. */
  function Later(ok: bool): (r: Choice) {
    Choice(0, ok, 5, 6, FACTS, WaitFailed, false, "m", Group.Alive, Group.Delivered, 0, 0, 0)
  }

  function JobAt(state: JobState, revision: Counter): (r: JobSnapshot) {
    JOB.(state := state, revision := revision)
  }

  ghost predicate Reached(mode: Mode, w: World) {
    exists ws :: |ws| > 0 && Trace(mode, ws) && ws[|ws| - 1] == w
  }

  lemma ReachesNext(mode: Mode, w: World, e: Event)
    requires Reached(mode, w) && Enabled(mode, w, e)
    ensures Reached(mode, Apply(w, e))
  {
    var after := Apply(w, e);
    assert Next(mode, w, after);
    hide Apply, Initial, Enabled, Next;
    var ws :| |ws| > 0 && Trace(mode, ws) && ws[|ws| - 1] == w;
    LongerTrace(mode, ws, after);
    assert (ws + [after])[|ws|] == after;
  }

  lemma LongerTrace(mode: Mode, ws: seq<World>, after: World)
    requires |ws| > 0 && Trace(mode, ws) && Next(mode, ws[|ws| - 1], after)
    ensures Trace(mode, ws + [after])
  {
    hide Initial, Next;
    var longer := ws + [after];
    forall i | 0 <= i < |longer| - 1 ensures Next(mode, longer[i], longer[i + 1]) {
      assert longer[i] == ws[i];
      if i < |ws| - 1 { assert longer[i + 1] == ws[i + 1]; }
    }
    assert longer[0] == ws[0];
  }

  /** Reached, with the clock at zero and nothing requested, reaped or signalled so far. */
  ghost predicate Quiet(mode: Mode, w: World) {
    Reached(mode, w) && w.clock == 0 && w.requested == {} && w.reaped == {} && 9 !in w.clients
  }

  /** Lets `client` take one step that neither ends it nor starts, requests or signals anything. */
  lemma Walk(mode: Mode, w: World, client: ClientId, ok: bool, store: StoreState, next: Client) returns (after: World)
    requires Quiet(mode, w) && client in w.clients && !(mode.reliable && w.clients[client].MonWait?)
    requires var e := Act(w.store, w.clients[client], Later(ok));
      && e.store == store && e.next == Some(next) && e.spawned.None? && e.requested.None?
      && (e.waited.Some? ==> e.waited.value.status.WaitFailed?)
    ensures Quiet(mode, after) && after.store == store && after.clients == w.clients[client := next]
  {
    hide Act, Initial, Reached;
    after := Apply(w, Step(client, Later(ok), 9));
    assert (w.clients - {client})[client := next] == w.clients[client := next];
    ReachesNext(mode, w, Step(client, Later(ok), 9));
  }

  lemma Join(mode: Mode, w: World, client: ClientId, program: Client) returns (after: World)
    requires Quiet(mode, w) && client !in w.clients && client != 9
    requires program.DueLoad? || program.CanResolve? || (mode.strays && program.MonLoadJob?)
    ensures Quiet(mode, after) && after.store == w.store && after.clients == w.clients[client := program]
  {
    after := Apply(w, Arrive(client, program));
    ReachesNext(mode, w, Arrive(client, program));
    hide Reached;
  }

  lemma Transits(s: StoreState, state: JobState, revision: Counter, to: JobState, actor: Actor, reason: Reason)
    requires JOB.id in s.jobs && s.jobs[JOB.id] == JobAt(state, revision) && revision < 100 && OneShotLegal(state, to)
    ensures var (s', r) := JobTransitioned(s, JOB.id, revision, to, false, actor, reason.Text(), 0);
      && r == Ok(JobAt(to, revision + 1))
      && JOB.id in s'.jobs && s'.jobs[JOB.id] == JobAt(to, revision + 1) && s'.runs == s.runs
  {
    ReasonIsValid(reason);
    hide Reason.Text;
  }

  /** One job step: the client commits the transition it stands before and goes on. */
  lemma WalkJob(mode: Mode, w: World, client: ClientId, state: JobState, revision: Counter, to: JobState, actor: Actor,
                reason: Reason, next: Client)
    returns (after: World)
    requires Quiet(mode, w) && client in w.clients && !w.clients[client].MonWait?
    requires JOB.id in w.store.jobs && w.store.jobs[JOB.id] == JobAt(state, revision) && revision < 100
    requires OneShotLegal(state, to)
    requires var (s', r) := JobTransitioned(w.store, JOB.id, revision, to, false, actor, reason.Text(), 0);
      r == Ok(JobAt(to, revision + 1)) ==> Act(w.store, w.clients[client], Later(true)) == Go(s', next)
    ensures Quiet(mode, after) && after.clients == w.clients[client := next] && after.store.runs == w.store.runs
    ensures JOB.id in after.store.jobs && after.store.jobs[JOB.id] == JobAt(to, revision + 1)
  {
    hide Act, Reason.Text, Quiet;
    Transits(w.store, state, revision, to, actor, reason);
    hide JobTransitioned;
    var store := JobTransitioned(w.store, JOB.id, revision, to, false, actor, reason.Text(), 0).0;
    after := Walk(mode, w, client, true, store, next);
  }

  // ----- the supervisor

  lemma Submitted(mode: Mode) returns (w: World)
    ensures Quiet(mode, w) && w.clients == map[]
    ensures 4 in w.store.jobs && w.store.jobs[4] == JOB && w.store.runs == map[]
  {
    w := World(EMPTY, map[], 0, [], {}, {}, {}, map[], []);
    assert Trace(mode, [w]) && [w][0] == w;
    ReachesNext(mode, w, Submit(JOB));
    w := Apply(w, Submit(JOB));
  }

  lemma LoadsScheduled(s: StoreState)
    requires 4 in s.jobs && s.jobs[4] == JOB
    ensures Act(s, DueLoad(4), Later(true)) == Go(s, DueWaiting(JOB, 0))
  {
    ActOf(s, DueLoad(4), Later(true));
    hide Act;
  }

  lemma CommitsWaiting(s: StoreState)
    ensures var (s', r) := JobTransitioned(s, 4, 1, Waiting, false, Supervisor, LoadedDeadline.Text(), 0);
      r.Ok? ==> Act(s, DueWaiting(JobAt(Scheduled, 1), 0), Later(true)) == Go(s', DueStarting(r.value, 0))
  {
    hide JobTransitioned, Reason.Text;
  }

  lemma CommitsStarting(s: StoreState)
    ensures var (s', r) := JobTransitioned(s, 4, 2, Starting, false, Supervisor, DeadlineDue.Text(), 0);
      r.Ok? ==> Act(s, DueStarting(JobAt(Waiting, 2), 0), Later(true)) == Go(s', DueClaim(r.value, 0))
  {
    hide JobTransitioned, Reason.Text;
  }

  /** The supervisor takes the submitted job to its claim. */
  lemma JobIsStarted(mode: Mode) returns (w: World)
    ensures Quiet(mode, w) && w.clients == map[1 := DueClaim(JobAt(Starting, 3), 0)]
    ensures 4 in w.store.jobs && w.store.jobs[4] == JobAt(Starting, 3) && w.store.runs == map[]
  {
    hide Reason.Text, Act, JobTransitioned, Quiet;
    w := Submitted(mode);
    w := Join(mode, w, 1, DueLoad(4));
    LoadsScheduled(w.store);
    w := Walk(mode, w, 1, true, w.store, DueWaiting(JOB, 0));
    CommitsWaiting(w.store);
    w := WalkJob(mode, w, 1, Scheduled, 1, Waiting, Supervisor, LoadedDeadline, DueStarting(JobAt(Waiting, 2), 0));
    CommitsStarting(w.store);
    w := WalkJob(mode, w, 1, Waiting, 2, Starting, Supervisor, DeadlineDue, DueClaim(JobAt(Starting, 3), 0));
  }

  // ----- claim and spawn

  lemma ClaimsFirstRun(s: StoreState)
    requires 4 in s.jobs && s.runs == map[]
    ensures var e := Act(s, DueClaim(JobAt(Starting, 3), 0), Later(true));
      && e.store == s.(runs := map[5 := CLAIMED]) && e.next == Some(DueRunning(JobAt(Starting, 3), CLAIMED, 0))
      && e.spawned.None? && e.requested.None? && e.waited.None?
  {
    assert HighestSequence(s.runs, 4) == 0;
  }

  lemma CommitsRunning(s: StoreState)
    ensures var (s', r) := JobTransitioned(s, 4, 3, Running, false, Supervisor, MonitorClaimed.Text(), 0);
      r.Ok? ==> Act(s, DueRunning(JobAt(Starting, 3), CLAIMED, 0), Later(true)) == Go(s', DueSpawn(r.value, CLAIMED))
  {
    hide JobTransitioned, Reason.Text;
  }

  lemma Spawned(mode: Mode, w: World) returns (after: World)
    requires Quiet(mode, w) && w.clients == map[1 := DueSpawn(JobAt(Running, 4), CLAIMED)]
    ensures Quiet(mode, after) && after.clients == map[2 := MonLoadJob(4, 5)] && after.store == w.store
  {
    after := Apply(w, Step(1, Later(true), 2));
    ReachesNext(mode, w, Step(1, Later(true), 2));
    hide Reached;
  }

  lemma MonitorIsSpawned(mode: Mode) returns (w: World)
    ensures Quiet(mode, w) && w.clients == map[2 := MonLoadJob(4, 5)]
    ensures 4 in w.store.jobs && w.store.jobs[4] == JobAt(Running, 4) && w.store.runs == map[5 := CLAIMED]
  {
    hide Reason.Text, Act, JobTransitioned, Quiet;
    w := JobIsStarted(mode);
    ClaimsFirstRun(w.store);
    w := Walk(mode, w, 1, true, w.store.(runs := map[5 := CLAIMED]), DueRunning(JobAt(Starting, 3), CLAIMED, 0));
    CommitsRunning(w.store);
    w := WalkJob(mode, w, 1, Starting, 3, Running, Supervisor, MonitorClaimed, DueSpawn(JobAt(Running, 4), CLAIMED));
    w := Spawned(mode, w);
  }

  // ----- the monitor starts the command

  lemma RunsAreReadable()
    ensures Rehydrate(CLAIMED).Ok? && Rehydrate(RUNNING).Ok? && Started(CLAIMED, FACTS) == Ok(RUNNING)
  {
    assert PathParts("o")[0] == "o" && PathParts("e")[0] == "e";
  }

  lemma FinishedIsReadable(outcome: RunOutcome)
    requires outcome == LOST || outcome == FAILED
    ensures Rehydrate(Finished(outcome)).Ok? && WithOutcome(RUNNING, 0, outcome) == Ok(Finished(outcome))
  {
    assert PathParts("o")[0] == "o" && PathParts("e")[0] == "e";
  }

  lemma MonitorLoads(s: StoreState)
    requires 4 in s.jobs && s.jobs[4] == JobAt(Running, 4) && s.runs == map[5 := CLAIMED]
    ensures Act(s, MonLoadJob(4, 5), Later(true)) == Go(s, MonLoadRun(JobAt(Running, 4), 5))
    ensures Act(s, MonLoadRun(JobAt(Running, 4), 5), Later(true)) == Go(s, MonCheck(JobAt(Running, 4), CLAIMED))
    ensures Act(s, MonCheck(JobAt(Running, 4), CLAIMED), Later(true)) == Go(s, MonPrepare(JobAt(Running, 4), CLAIMED))
    ensures Act(s, MonPrepare(JobAt(Running, 4), CLAIMED), Later(true))
      == Go(s, MonMarkRead(JobAt(Running, 4), CLAIMED, FACTS))
  {
    RunsAreReadable();
    hide Rehydrate, Started, WithOutcome;
  }

  lemma MonitorMarks(s: StoreState)
    requires s.runs == map[5 := CLAIMED]
    ensures Act(s, MonMarkRead(JobAt(Running, 4), CLAIMED, FACTS), Later(true))
      == Go(s, MonMarkWrite(JobAt(Running, 4), CLAIMED, FACTS))
    ensures Act(s, MonMarkWrite(JobAt(Running, 4), CLAIMED, FACTS), Later(true))
            == Go(s.(runs := map[5 := RUNNING]), MonWait(JobAt(Running, 4), RUNNING))
  {
    RunsAreReadable();
    hide Rehydrate, Started, WithOutcome;
  }

  /** A monitor gets as far as the claimed run it is about to start. */
  lemma MonitorArrives(mode: Mode, w: World, client: ClientId) returns (after: World)
    requires Quiet(mode, w) && client in w.clients && w.clients[client] == MonLoadJob(4, 5)
    requires 4 in w.store.jobs && w.store.jobs[4] == JobAt(Running, 4) && w.store.runs == map[5 := CLAIMED]
    ensures Quiet(mode, after) && after.store == w.store
    ensures after.clients == w.clients[client := MonPrepare(JobAt(Running, 4), CLAIMED)]
  {
    hide Act, Quiet;
    MonitorLoads(w.store);
    after := Walk(mode, w, client, true, w.store, MonLoadRun(JobAt(Running, 4), 5));
    after := Walk(mode, after, client, true, w.store, MonCheck(JobAt(Running, 4), CLAIMED));
    after := Walk(mode, after, client, true, w.store, MonPrepare(JobAt(Running, 4), CLAIMED));
  }

  lemma CommandRuns(mode: Mode, w: World, client: ClientId) returns (after: World)
    requires Quiet(mode, w) && client in w.clients && w.clients[client] == MonPrepare(JobAt(Running, 4), CLAIMED)
    requires 4 in w.store.jobs && w.store.jobs[4] == JobAt(Running, 4) && w.store.runs == map[5 := CLAIMED]
    ensures Quiet(mode, after) && after.store == w.store.(runs := map[5 := RUNNING])
    ensures after.clients == w.clients[client := MonWait(JobAt(Running, 4), RUNNING)]
  {
    hide Act, Quiet;
    MonitorLoads(w.store);
    MonitorMarks(w.store);
    after := Walk(mode, w, client, true, w.store, MonMarkRead(JobAt(Running, 4), CLAIMED, FACTS));
    after := Walk(mode, after, client, true, w.store, MonMarkWrite(JobAt(Running, 4), CLAIMED, FACTS));
    after := Walk(mode, after, client, true, w.store.(runs := map[5 := RUNNING]), MonWait(JobAt(Running, 4), RUNNING));
  }

  // ----- the canceller asks, and is overtaken

  lemma CancellerLoads(s: StoreState)
    requires 4 in s.jobs && s.jobs[4] == JobAt(Running, 4) && s.runs == map[5 := RUNNING]
    ensures Act(s, CanResolve(4), Later(true)) == Go(s, CanActive(JobAt(Running, 4)))
  {
    hide LatestActiveRun, IsLatestActive;
  }

  lemma CancellerFindsRun(s: StoreState)
    requires s.runs == map[5 := RUNNING]
    ensures Act(s, CanActive(JobAt(Running, 4)), Later(true))
      == Go(s, CanRequest(JobAt(Running, 4), Some(RUNNING), CANCEL_ATTEMPTS))
  {
    assert IsLatestActive(s.runs, 4, 5);
    assert LatestActiveRun(s, 4) == Some(RUNNING);
    hide LatestActiveRun, IsLatestActive;
    ActOf(s, CanActive(JobAt(Running, 4)), Later(true));
    hide Act;
  }

  lemma CommitsRequest(s: StoreState)
    ensures var (s', r) := JobTransitioned(s, 4, 4, CancelRequested, false, Cli, CancelAsked.Text(), 0);
      r.Ok? ==>
        Act(s, CanRequest(JobAt(Running, 4), Some(RUNNING), CANCEL_ATTEMPTS), Later(true))
        == Go(s', CanRunLoad(r.value, RUNNING))
  {
    hide JobTransitioned, Reason.Text;
  }

  lemma CancellerReadsRun(s: StoreState)
    requires s.runs == map[5 := RUNNING]
    ensures Act(s, CanRunLoad(JobAt(CancelRequested, 5), RUNNING), Later(true))
      == Go(s, CanCommitRead(JobAt(CancelRequested, 5), RUNNING))
  {
    RunsAreReadable();
    hide Rehydrate, Started, WithOutcome;
  }

  lemma CancellerIsReady(mode: Mode, w: World) returns (after: World)
    requires Quiet(mode, w) && 3 !in w.clients
    requires 4 in w.store.jobs && w.store.jobs[4] == JobAt(Running, 4) && w.store.runs == map[5 := RUNNING]
    ensures Quiet(mode, after) && after.store.runs == map[5 := RUNNING]
    ensures after.clients == w.clients[3 := CanCommitRead(JobAt(CancelRequested, 5), RUNNING)]
  {
    hide Reason.Text, Act, JobTransitioned, Quiet;
    var job := JobAt(Running, 4);
    CancellerLoads(w.store);
    CancellerFindsRun(w.store);
    after := Join(mode, w, 3, CanResolve(4));
    after := Walk(mode, after, 3, true, w.store, CanActive(job));
    after := Walk(mode, after, 3, true, w.store, CanRequest(job, Some(RUNNING), CANCEL_ATTEMPTS));
    CommitsRequest(after.store);
    after :=
      WalkJob(mode, after, 3, Running, 4, CancelRequested, Cli, CancelAsked,
              CanRunLoad(JobAt(CancelRequested, 5), RUNNING));
    CancellerReadsRun(after.store);
    after := Walk(mode, after, 3, true, after.store, CanCommitRead(JobAt(CancelRequested, 5), RUNNING));
  }

  // ----- a monitor finishes the run without its command being gone

  /** Waiting for the command fails, and the monitor records that. */
  lemma WaitFails(s: StoreState)
    requires s.runs == map[5 := RUNNING]
    ensures var job, e := JobAt(Running, 4), Act(s, MonWait(JobAt(Running, 4), RUNNING), Later(true));
      && e.store == s && e.next == Some(MonObserve(job, RUNNING, 0, WaitFailed, false)) && e.spawned.None?
      && e.requested.None? && e.waited == Some(Waited(5, WaitFailed, false))
      && Act(s, MonObserve(job, RUNNING, 0, WaitFailed, false), Later(true))
        == Go(s, MonRecordRead(job, RUNNING, 0, LOST))
  {
    RunsAreReadable();
    hide Rehydrate, Started, WithOutcome;
  }

  /** A monitor started by hand fails to prepare its own start. */
  lemma PreparationFails(s: StoreState)
    ensures Act(s, MonPrepare(JobAt(Running, 4), CLAIMED), Later(false))
      == Go(s, MonRecordRead(JobAt(Running, 4), CLAIMED, 0, FAILED))
  {}

  lemma OutcomeIsPlanned(s: StoreState, held: Run, outcome: RunOutcome)
    requires s.runs == map[5 := RUNNING] && (held == RUNNING || held == CLAIMED)
    requires (outcome == LOST || outcome == FAILED)
    ensures Act(s, MonRecordRead(JobAt(Running, 4), held, 0, outcome), Later(true))
         == Go(s, MonRecordWrite(JobAt(Running, 4), RUNNING, 0, outcome))
  {
    RunsAreReadable();
    FinishedIsReadable(outcome);
    ActOf(s, MonRecordRead(JobAt(Running, 4), held, 0, outcome), Later(true));
    assert held.id == 5 && held.claimToken == 6 && RUNNING.claimToken == 6 && !RUNNING.state.IsTerminal();
    hide Rehydrate, Started, WithOutcome, Act, OutcomeState, Finished;
  }

  lemma TerminalRowIsWritten(s: StoreState, outcome: RunOutcome)
    requires s.runs == map[5 := RUNNING] && (outcome == LOST || outcome == FAILED)
    ensures TerminalWrite(s, RUNNING, 0, outcome) == Some(s.(runs := map[5 := Finished(outcome)]))
  {
    FinishedIsReadable(outcome);
    hide Rehydrate, WithOutcome, OutcomeState;
    var stored :=
      RUNNING.(finishedAt := Some(0), state := Finished(outcome).state, outcome := Finished(outcome).outcome);
    assert stored == Finished(outcome);
    assert s.runs[5 := stored] == map[5 := stored];
  }

  lemma OutcomeIsWritten(s: StoreState, outcome: RunOutcome)
    requires s.runs == map[5 := RUNNING] && (outcome == LOST || outcome == FAILED)
    ensures Act(s, MonRecordWrite(JobAt(Running, 4), RUNNING, 0, outcome), Later(true))
         == Go(s.(runs := map[5 := Finished(outcome)]), MonFinishLoad(JobAt(Running, 4), OutcomeState(outcome)))
  {
    TerminalRowIsWritten(s, outcome);
    ActOf(s, MonRecordWrite(JobAt(Running, 4), RUNNING, 0, outcome), Later(true));
    hide TerminalWrite, Act, OutcomeState, Finished;
  }

  /** The outcome goes in between the canceller's look at the run and its commit call. */
  lemma RunIsFinished(mode: Mode, w: World, client: ClientId, held: Run, outcome: RunOutcome) returns (after: World)
    requires Quiet(mode, w) && client in w.clients
    requires w.clients[client] == MonRecordRead(JobAt(Running, 4), held, 0, outcome)
    requires w.store.runs == map[5 := RUNNING] && (held == RUNNING || held == CLAIMED)
    requires (outcome == LOST || outcome == FAILED)
    ensures Quiet(mode, after) && after.store.runs == map[5 := Finished(outcome)]
    ensures after.clients == w.clients[client := MonFinishLoad(JobAt(Running, 4), OutcomeState(outcome))]
  {
    hide Act, Quiet;
    OutcomeIsPlanned(w.store, held, outcome);
    OutcomeIsWritten(w.store, outcome);
    after := Walk(mode, w, client, true, w.store, MonRecordWrite(JobAt(Running, 4), RUNNING, 0, outcome));
    var store := w.store.(runs := map[5 := Finished(outcome)]);
    after := Walk(mode, after, client, true, store, MonFinishLoad(JobAt(Running, 4), OutcomeState(outcome)));
  }

  lemma FinishedIsPlanned(s: StoreState, outcome: RunOutcome)
    requires s.runs == map[5 := Finished(outcome)] && (outcome == LOST || outcome == FAILED)
    ensures PlanRequest(s, 5, 6) == AlreadyRequested(Finished(outcome))
    ensures Finished(outcome).commandIdentity.Some?
  {
    FinishedIsReadable(outcome);
    assert Finished(outcome).state.IsTerminal() && Finished(outcome).commandIdentity.Some?
      && Finished(outcome).claimToken == 6;
    hide Rehydrate, WithOutcome, Finished;
  }

  lemma CommitFindsItFinished(s: StoreState, outcome: RunOutcome)
    requires s.runs == map[5 := Finished(outcome)] && (outcome == LOST || outcome == FAILED)
    ensures Act(s, CanCommitRead(JobAt(CancelRequested, 5), RUNNING), Later(true))
         == Go(s, CanSignal(JobAt(CancelRequested, 5), Finished(outcome)))
  {
    FinishedIsPlanned(s, outcome);
    ActOf(s, CanCommitRead(JobAt(CancelRequested, 5), RUNNING), Later(true));
    assert RUNNING.id == 5 && RUNNING.claimToken == 6;
    hide PlanRequest, Act, Finished;
  }

  lemma LeaderIsSignalled(s: StoreState, job: JobSnapshot, run: Run)
    requires run.id == 5 && run.commandIdentity == Some(COMMAND)
    ensures Act(s, CanSignal(job, run), Later(true)) == Go(s, CanTerm(job, run))
    ensures Act(s, CanTerm(job, run), Later(true)).sent == Some(Sent(5, false))
  {
    ActOf(s, CanSignal(job, run), Later(true));
    ActOf(s, CanTerm(job, run), Later(true));
    hide Act;
  }

  /** The commit call reports the finished run as a success, the leader is found alive, and TERM goes
      out without a request. */
  lemma TermIsDelivered(mode: Mode, w: World, outcome: RunOutcome)
    requires Quiet(mode, w) && w.store.runs == map[5 := Finished(outcome)] && (outcome == LOST || outcome == FAILED)
    requires 3 in w.clients && w.clients[3] == CanCommitRead(JobAt(CancelRequested, 5), RUNNING)
    ensures !SignalsAreBacked(mode)
  {
    hide Act, Reached;
    CommitFindsItFinished(w.store, outcome);
    LeaderIsSignalled(w.store, JobAt(CancelRequested, 5), Finished(outcome));
    var job, run := JobAt(CancelRequested, 5), Finished(outcome);
    var last := Walk(mode, w, 3, true, w.store, CanSignal(job, run));
    last := Walk(mode, last, 3, true, w.store, CanTerm(job, run));
    SignalIsUnbacked(mode, last, Step(3, Later(true), 9));
  }

  lemma SignalIsUnbacked(mode: Mode, w: World, e: Event)
    requires Reached(mode, w) && Enabled(mode, w, e) && e.Step? && w.requested == {}
    requires Act(w.store, w.clients[e.client], e.choice).sent == Some(Sent(5, false))
    ensures !SignalsAreBacked(mode)
  {
    var after := Apply(w, e);
    assert after.signals == w.signals + [Sent(5, false)];
    assert Next(mode, w, after);
    hide Apply, Act, Enabled, Next, Initial;
    var ws :| |ws| > 0 && Trace(mode, ws) && ws[|ws| - 1] == w;
    LongerTrace(mode, ws, after);
    var longer, j := ws + [after], |ws| - 1;
    assert longer[j] == w && longer[j + 1] == after;
    RequestedMeansWasRequested(mode, longer, j, 5);
    hide WasRequested, Trace;
    assert Delivers(longer, j, 5);
  }

  // ----- the exact condition

  /** A monitor whose wait fails records the run as interrupted, with its command possibly alive. */
  lemma FailedWaitBreaksThePromise(mode: Mode)
    requires !mode.reliable
    ensures !SignalsAreBacked(mode)
  {
    hide Act, Quiet, SignalsAreBacked;
    var job := JobAt(Running, 4);
    var w := MonitorIsSpawned(mode);
    w := MonitorArrives(mode, w, 2);
    w := CommandRuns(mode, w, 2);
    w := CancellerIsReady(mode, w);
    WaitFails(w.store);
    w := Walk(mode, w, 2, true, w.store, MonObserve(job, RUNNING, 0, WaitFailed, false));
    w := Walk(mode, w, 2, true, w.store, MonRecordRead(job, RUNNING, 0, LOST));
    w := RunIsFinished(mode, w, 2, RUNNING, LOST);
    TermIsDelivered(mode, w, LOST);
  }

  /** A second monitor, started by hand, fails to prepare and finishes the run that the first one has
      started meanwhile. */
  lemma StrayMonitorBreaksThePromise(mode: Mode)
    requires mode.strays
    ensures !SignalsAreBacked(mode)
  {
    hide Act, Quiet, SignalsAreBacked;
    var job := JobAt(Running, 4);
    var w := MonitorIsSpawned(mode);
    w := Join(mode, w, 7, MonLoadJob(4, 5));
    w := MonitorArrives(mode, w, 7);
    PreparationFails(w.store);
    w := Walk(mode, w, 7, false, w.store, MonRecordRead(job, CLAIMED, 0, FAILED));
    w := MonitorArrives(mode, w, 2);
    w := CommandRuns(mode, w, 2);
    w := CancellerIsReady(mode, w);
    w := RunIsFinished(mode, w, 7, CLAIMED, FAILED);
    TermIsDelivered(mode, w, FAILED);
  }

  /** "No signal before the stored request" holds in exactly those systems in which waiting for a
      started command never fails and only the supervisor starts monitors. */
  lemma PromiseHoldsExactly(mode: Mode)
    ensures SignalsAreBacked(mode) <==> mode.reliable && !mode.strays
  {
    hide SignalsAreBacked;
    if mode.strays { StrayMonitorBreaksThePromise(mode); }
    else if !mode.reliable { FailedWaitBreaksThePromise(mode); }
    else { TameSystemsKeepThePromise(mode); }
  }
}
