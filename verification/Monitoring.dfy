/** The monitor's program for one claimed run (`src/run_monitor`). */
module Monitoring {
  import opened Wrappers
  import opened Primitives
  import opened Transitions
  import opened Recurrence
  import opened Jobs
  import opened Runs
  import opened Store
  import opened Protocol
  import opened Programs

  lemma MonActs(s: StoreState, c: Client, oracle: Oracle, s0: StoreState, c0: Client, n: nat, deeds: seq<Deed>)
    requires Solo(s0, c0, oracle, n) == Place(s, Some(c), deeds) && IsMonitor(c)
    ensures var e := MonStep(s, c, oracle(c));
      && Solo(s0, c0, oracle, n + 1) == Place(e.store, e.next, deeds + Deeds(e))
      && (Deeds(e) == [] ==> Solo(s0, c0, oracle, n + 1) == Place(e.store, e.next, deeds))
  {
    ActOf(s, c, oracle(c));
    hide Act, MonStep, Solo, Deeds;
    Onward(s0, c0, oracle, n, s, c, deeds);
  }

  /** Where a program stands after a part of it: further on at a client, or done. */
  function AfterPart(runState: Option<RunState>, job: JobSnapshot): (r: Option<Client>) {
    if runState.Some? then Some(MonFinishLoad(job, runState.value)) else None
  }

  /** The outcome is recorded unless the clock has gone back behind the creation of the run. */
  predicate RecordedAs(s: StoreState, after: StoreState, run: Run, finishedAt: UtcTimestamp, outcome: RunOutcome,
                       r: Option<RunState>)
  {
    if finishedAt < run.createdAt then r.None? && after == s
    else r == Some(OutcomeState(outcome)) && after == s.(runs := s.runs[run.id := Concluded(run, finishedAt, outcome)])
  }

  /** The row of a run whose command has started, each fact in its own field. */
  function StartedRow(run: Run, startedAt: UtcTimestamp, facts: StartFacts): (r: Run) {
    run.(state := RunRunning, startedAt := Some(startedAt), monitorIdentity := Some(facts.monitor),
         commandIdentity := Some(facts.command), stdoutPath := Some(facts.stdoutPath),
         stderrPath := Some(facts.stderrPath))
  }

  /** What the monitor does for a run, from the answers it gets alone. A run that is not there as the
      monitor was given it is left alone. A failed preparation is recorded as a failure. Otherwise the
      command is on record as started, and then the outcome that its end calls for. */
  ghost predicate ExecutedAs(s: StoreState, after: StoreState, job: JobSnapshot, run: Run, oracle: Oracle,
                             r: Option<RunState>, deeds: seq<Deed>)
  {
    var prepared := oracle(MonPrepare(job, run));
    var facts := prepared.facts;
    if !run.state.RunStarting? || LoadClaimed(s, run.id, run.claimToken) != Ok(run) then
      r.None? && after == s && deeds == []
    else if !prepared.ok then
      RecordedAs(s, after, run, prepared.now, RunOutcome.Failed(prepared.message), r) && deeds == []
    else if !CanMark(run, prepared.now, facts.monitor, facts.command, facts.stdoutPath, facts.stderrPath) then
      r.None? && after == s && deeds == []
    else
      var running := StartedRow(run, prepared.now, facts);
      var end := oracle(MonWait(job, running));
      && deeds == [DidWait(Waited(run.id, end.status, end.captureFailed))]
      && EndedAs(s.(runs := s.runs[run.id := running]), after, running, end, r)
  }

  /** Nobody asks for a cancellation while the monitor is alone. */
  ghost predicate EndedAs(s: StoreState, after: StoreState, running: Run, end: Choice, r: Option<RunState>) {
    exists outcome ::
      CallsFor(end.status, end.captureFailed, false, outcome) && RecordedAs(s, after, running, end.now, outcome, r)
  }

  lemma EndIsRecorded(s: StoreState, after: StoreState, running: Run, end: Choice, r: Option<RunState>)
    requires RecordedAs(s, after, running, end.now, CompletionOutcome(end.status, end.captureFailed, false), r)
    ensures EndedAs(s, after, running, end, r)
  {
    OutcomeIsCalledFor(end.status, end.captureFailed, false, CompletionOutcome(end.status, end.captureFailed, false));
    hide RecordedAs, CallsFor, CompletionOutcome;
  }

  lemma MarkedIsReadable(s: StoreState, run: Run, startedAt: UtcTimestamp, facts: StartFacts)
    requires LoadClaimed(s, run.id, run.claimToken) == Ok(run)
    requires CanMark(run, startedAt, facts.monitor, facts.command, facts.stdoutPath, facts.stderrPath)
    ensures var running := StartedRow(run, startedAt, facts);
      var s' := s.(runs := s.runs[run.id := running]);
      LoadClaimed(s', run.id, run.claimToken) == Ok(running)
  {
    hide ValidIdentity, ValidLogPath;
  }

  lemma FailureIsLegal(message: string)
    ensures RunLegal(RunStarting, OutcomeState(RunOutcome.Failed(message)))
  {}

  /** Whatever a wait reports alone, the outcome is a legal end of a running command. */
  lemma EndIsLegal(end: Choice)
    ensures RunLegal(RunRunning, OutcomeState(CompletionOutcome(end.status, end.captureFailed, false)))
  {}

  /** Runs the claimed command once and records how it ended; `None` when the program has to give up. */
  method Execute(store: JobStore, job: JobSnapshot, run: Run, oracle: Oracle)
    returns (r: Option<RunState>, ghost steps: nat, ghost deeds: seq<Deed>)
    requires store.Valid()
    modifies store`runs
    ensures store.Valid()
    ensures Solo(old(store.State()), MonCheck(job, run), oracle, steps)
      == Place(store.State(), AfterPart(r, job), deeds)
    ensures ExecutedAs(old(store.State()), store.State(), job, run, oracle, r, deeds)
  {
    hide Solo, Act, LoadClaimed, LoadRun, RunMarked, MarkRunning, CompletionOutcome;
    hide RecordedAs, EndedAs, CanMark, OutcomeState;
    ghost var s0, c0 := store.State(), MonCheck(job, run);
    deeds := [];
    NoStep(s0, c0, oracle);
    MonActs(s0, c0, oracle, s0, c0, 0, deeds);
    steps := 1;
    var stored := LoadClaimed(store.State(), run.id, run.claimToken);
    if stored.Err? || !stored.value.state.RunStarting? || stored.value != run {
      return None, steps, deeds;
    }
    MonActs(s0, MonPrepare(job, run), oracle, s0, c0, 1, deeds);
    steps := 2;
    var prepared := oracle(MonPrepare(job, run));
    ClaimedRow(s0, run.id, run.claimToken);
    if !prepared.ok {
      FailureIsLegal(prepared.message);
      ghost var more, extra;
      r, more, extra := Record(store, job, run, prepared.now, RunOutcome.Failed(prepared.message), oracle);
      SoloJoins(s0, c0, oracle, steps, more);
      steps, deeds := steps + more, deeds + extra;
      return r, steps, deeds;
    }
    var facts := prepared.facts.(startedAt := prepared.now);
    ghost var marking := MarkAlone(s0, job, run, facts, oracle);
    SoloJoins(s0, c0, oracle, 2, marking);
    steps := 2 + marking;
    var marked :=
      store.MarkRunRunning(run.id, run.claimToken, facts.startedAt, facts.monitor, facts.command, facts.stdoutPath,
                           facts.stderrPath);
    if marked.Err? {
      return None, steps, deeds;
    }
    var running := marked.value;
    MarkedIsReadable(s0, run, prepared.now, facts);
    assert running == StartedRow(run, prepared.now, facts);
    MonActs(store.State(), MonWait(job, running), oracle, s0, c0, steps, deeds);
    steps := steps + 1;
    var ended := oracle(MonWait(job, running));
    deeds := deeds + [DidWait(Waited(running.id, ended.status, ended.captureFailed))];
    ghost var more, extra;
    r, more, extra := Observe(store, job, running, ended, oracle);
    SoloJoins(s0, c0, oracle, steps, more);
    steps, deeds := steps + more, deeds + extra;
  }

  /** The look at the run after the wait, and the record of the outcome. */
  method Observe(store: JobStore, job: JobSnapshot, running: Run, ended: Choice, oracle: Oracle)
    returns (r: Option<RunState>, ghost steps: nat, ghost deeds: seq<Deed>)
    requires store.Valid()
    modifies store`runs
    ensures store.Valid() && deeds == []
    ensures Solo(old(store.State()), MonObserve(job, running, ended.now, ended.status, ended.captureFailed), oracle,
                 steps)
      == Place(store.State(), AfterPart(r, job), deeds)
    ensures
      (LoadClaimed(old(store.State()), running.id, running.claimToken) == Ok(running) && running.state.RunRunning?) ==>
      EndedAs(old(store.State()), store.State(), running, ended, r)
  {
    hide Solo, Act, LoadRun, LoadClaimed, CompletionOutcome, RecordedAs, EndedAs, OutcomeState;
    ghost var s0, c0 := store.State(), MonObserve(job, running, ended.now, ended.status, ended.captureFailed);
    deeds := [];
    NoStep(s0, c0, oracle);
    MonActs(s0, c0, oracle, s0, c0, 0, deeds);
    steps := 1;
    ClaimedIsLoaded(s0, running);
    var current := LoadRun(store.State(), running.id);
    if current.Err? && !current.error.NotFound? {
      return None, steps, deeds;
    }
    var requested := current.Ok? && current.value.state.RunCancelRequested?;
    var outcome := CompletionOutcome(ended.status, ended.captureFailed, requested);
    EndIsLegal(ended);
    ghost var more, extra;
    r, more, extra := Record(store, job, running, ended.now, outcome, oracle);
    if LoadClaimed(s0, running.id, running.claimToken) == Ok(running) && running.state.RunRunning? {
      EndIsRecorded(s0, store.State(), running, ended, r);
    }
    SoloJoins(s0, c0, oracle, 1, more);
    steps, deeds := 1 + more, deeds + extra;
  }

  lemma ClaimedIsLoaded(s: StoreState, run: Run)
    ensures LoadClaimed(s, run.id, run.claimToken) == Ok(run) ==> LoadRun(s, run.id) == Ok(run)
  {}

  lemma MarkAlone(s: StoreState, job: JobSnapshot, run: Run, facts: StartFacts, oracle: Oracle) returns (steps: nat)
    ensures var (after, r) :=
      RunMarked(s, run.id, run.claimToken, facts.startedAt, facts.monitor, facts.command, facts.stdoutPath,
                facts.stderrPath);
      Solo(s, MonMarkRead(job, run, facts), oracle, steps)
        == Place(after, if r.Ok? then Some(MonWait(job, r.value)) else None, [])
  {
    hide Solo, Act, LoadClaimed, MarkRunning, WriteRunning;
    var c := MonMarkRead(job, run, facts);
    NoStep(s, c, oracle);
    MonActs(s, c, oracle, s, c, 0, []);
    steps := 1;
    var seen := LoadClaimed(s, run.id, run.claimToken);
    if seen.Ok? && Started(seen.value, facts).Ok? {
      MonActs(s, MonMarkWrite(job, seen.value, facts), oracle, s, c, 1, []);
      steps := 2;
    }
  }

  /** Records the outcome; the same outcome recorded before counts as success. */
  method Record(store: JobStore, job: JobSnapshot, run: Run, finishedAt: UtcTimestamp, outcome: RunOutcome,
                oracle: Oracle)
    returns (r: Option<RunState>, ghost steps: nat, ghost deeds: seq<Deed>)
    requires store.Valid()
    modifies store`runs
    ensures store.Valid()
    ensures Solo(old(store.State()), MonRecordRead(job, run, finishedAt, outcome), oracle, steps)
      == Place(store.State(), AfterPart(r, job), deeds)
    ensures LoadClaimed(old(store.State()), run.id, run.claimToken) == Ok(run)
            && RunLegal(run.state, OutcomeState(outcome)) ==>
      RecordedAs(old(store.State()), store.State(), run, finishedAt, outcome, r)
    ensures deeds == []
  {
    hide Solo, RunRecorded, LoadClaimed, WithOutcome, OutcomeState;
    deeds := [];
    steps := RecordAlone(store.State(), job, run, finishedAt, outcome, oracle);
    if LoadClaimed(store.State(), run.id, run.claimToken) == Ok(run) && RunLegal(run.state, OutcomeState(outcome)) {
      RecordingIsExact(store.State(), run, finishedAt, outcome);
    }
    var recorded := store.RecordRunTerminal(run.id, run.claimToken, finishedAt, outcome);
    r := if recorded.Ok? then Some(recorded.value.state) else None;
  }

  lemma RecordAlone(s: StoreState, job: JobSnapshot, run: Run, finishedAt: UtcTimestamp, outcome: RunOutcome,
                    oracle: Oracle)
    returns (steps: nat)
    ensures var (after, r) := RunRecorded(s, run.id, run.claimToken, finishedAt, outcome);
      Solo(s, MonRecordRead(job, run, finishedAt, outcome), oracle, steps)
      == Place(after, if r.Ok? then Some(MonFinishLoad(job, r.value.state)) else None, [])
  {
    hide Solo, Act, PlanTerminal, TerminalWrite, WriteTerminal;
    var c := MonRecordRead(job, run, finishedAt, outcome);
    NoStep(s, c, oracle);
    MonActs(s, c, oracle, s, c, 0, []);
    steps := 1;
    PlanKeepsOutcome(s, run.id, run.claimToken, finishedAt, outcome);
    if PlanTerminal(s, run.id, run.claimToken, finishedAt, outcome).WriteOutcome? {
      PlanThenWrite(s, run.id, run.claimToken, finishedAt, outcome);
      MonActs(s, MonRecordWrite(job, s.runs[run.id], finishedAt, outcome), oracle, s, c, 1, []);
      steps := 2;
    }
  }

  lemma PlanKeepsOutcome(s: StoreState, id: RunId, token: ClaimToken, finishedAt: UtcTimestamp, outcome: RunOutcome)
    ensures var plan := PlanTerminal(s, id, token, finishedAt, outcome);
      plan.WriteOutcome? ==> plan.run.state == OutcomeState(outcome)
  {}

  /** Can the monitor settle the job after a run that ended so? A cancelled job always, a recurring one by
      an advance, any other by the state of its run. */
  ghost predicate CanSettle(job: JobSnapshot, runState: RunState, now: UtcTimestamp) {
    && job.createdAt <= job.updatedAt <= now && job.revision < I64_MAX
    && (|| job.state.CancelRequested?
        || (&& job.schedule.RecurringInterval? && !runState.RunCancelled? && job.state in {Scheduled, Starting, Running}
            && LeastOccurrence(job.schedule.anchor, now, job.schedule.interval) <= MAX_TIMESTAMP)
        || (&& !job.schedule.RecurringInterval? && job.state in {Starting, Running}
            && (runState.RunFailed? || runState.RunInterrupted? || (runState.RunSucceeded? && job.state.Running?))))
  }

  /** The settled job, told from its state before and the state of the run. */
  ghost predicate SettledFrom(job: JobSnapshot, runState: RunState, now: UtcTimestamp, after: JobSnapshot) {
    var recurs := job.schedule.RecurringInterval? && !job.state.CancelRequested?;
    && job.revision < I64_MAX && after == job.(
      revision := job.revision + 1, state := after.state, updatedAt := now, nextDue := after.nextDue)
    && (after.state.Cancelled? <==> job.state.CancelRequested?)
    && (after.state.Waiting? <==> recurs)
    && (after.state.Succeeded? <==> !job.state.CancelRequested? && !recurs && runState.RunSucceeded?)
    && (after.state.Failed? <==> !job.state.CancelRequested? && !recurs && runState.RunFailed?)
    && (after.state.Interrupted? <==> !job.state.CancelRequested? && !recurs && runState.RunInterrupted?)
    && if recurs then after.nextDue == LeastOccurrence(job.schedule.anchor, now, job.schedule.interval)
       else after.nextDue == job.nextDue
  }

  /** What the monitor writes into the transition table when it settles a job. */
  function SettlingReason(state: JobState): (r: string) {
    if state.Cancelled? then "cancelled run finished"
    else if state.Waiting? then "next fixed-rate occurrence"
    else if state.Succeeded? then "command exited successfully"
    else if state.Failed? then "command failed"
    else "command outcome is unknown"
  }

  ghost predicate SettledAs(s: StoreState, after: StoreState, id: JobId, runState: RunState, now: UtcTimestamp) {
    if id in s.jobs && CanSettle(s.jobs[id], runState, now) then
      && id in after.jobs && SettledFrom(s.jobs[id], runState, now, after.jobs[id])
      && after == Committed(s, after.jobs[id], s.jobs[id].state, Monitor, SettlingReason(after.jobs[id].state))
    else after == s
  }

  lemma CancelledIsSettled(s: StoreState, id: JobId, runState: RunState, now: UtcTimestamp)
    requires id in s.jobs && s.jobs[id].id == id && !s.jobs[id].state.IsTerminal() && LoadJob(s, id).Ok?
    requires s.jobs[id].state.CancelRequested? || runState.RunCancelled?
    ensures SettledAs(s, FinishJob(s, s.jobs[id], runState, now), id, runState, now)
  {
    ReasonIsValid(CancelledRunFinished);
    TransitionIsExact(s, id, s.jobs[id].revision, JobState.Cancelled, false, Monitor, CancelledRunFinished.Text(), now);
    hide JobTransitioned, LeastOccurrence, ValidReason;
  }

  lemma RecurringIsSettled(s: StoreState, id: JobId, runState: RunState, now: UtcTimestamp)
    requires id in s.jobs && s.jobs[id].id == id && !s.jobs[id].state.IsTerminal() && LoadJob(s, id).Ok?
    requires !s.jobs[id].state.CancelRequested? && !runState.RunCancelled? && s.jobs[id].schedule.RecurringInterval?
    ensures SettledAs(s, FinishJob(s, s.jobs[id], runState, now), id, runState, now)
  {
    assert ValidReason(ADVANCE_REASON);
    AdvancingIsExact(s, id, s.jobs[id].revision, now);
    hide RecurringAdvanced, LeastOccurrence, ValidReason;
  }

  lemma MoveSettles(s: StoreState, id: JobId, runState: RunState, to: JobState, reason: Reason, now: UtcTimestamp)
    requires id in s.jobs && s.jobs[id].id == id && LoadJob(s, id).Ok?
    requires !s.jobs[id].state.CancelRequested? && !s.jobs[id].schedule.RecurringInterval?
    requires || (runState.RunSucceeded? && to.Succeeded? && reason.CommandSucceeded?)
             || (runState.RunFailed? && to.Failed? && reason.CommandFailed?)
             || (runState.RunInterrupted? && to.Interrupted? && reason.OutcomeUnknown?)
    ensures var after := JobTransitioned(s, id, s.jobs[id].revision, to, false, Monitor, reason.Text(), now).0;
      SettledAs(s, after, id, runState, now)
  {
    ReasonIsValid(reason);
    TransitionIsExact(s, id, s.jobs[id].revision, to, false, Monitor, reason.Text(), now);
    hide JobTransitioned, LeastOccurrence, ValidReason, HistoryOf;
  }

  lemma OneShotIsSettled(s: StoreState, id: JobId, runState: RunState, now: UtcTimestamp)
    requires id in s.jobs && s.jobs[id].id == id && !s.jobs[id].state.IsTerminal() && LoadJob(s, id).Ok?
    requires !s.jobs[id].state.CancelRequested? && !runState.RunCancelled? && !s.jobs[id].schedule.RecurringInterval?
    ensures SettledAs(s, FinishJob(s, s.jobs[id], runState, now), id, runState, now)
  {
    hide JobTransitioned, LoadJob, Reason.Text;
    match runState
    case RunSucceeded =>
      hide SettledAs;
      MoveSettles(s, id, runState, Succeeded, CommandSucceeded, now);
    case RunFailed =>
      hide SettledAs;
      MoveSettles(s, id, runState, JobState.Failed, CommandFailed, now);
    case RunInterrupted =>
      hide SettledAs;
      MoveSettles(s, id, runState, JobState.Interrupted, OutcomeUnknown, now);
    case _ =>
  }

  lemma FinishJobSettles(s: StoreState, id: JobId, runState: RunState, now: UtcTimestamp)
    requires id in s.jobs && s.jobs[id].id == id && !s.jobs[id].state.IsTerminal() && LoadJob(s, id).Ok?
    ensures SettledAs(s, FinishJob(s, s.jobs[id], runState, now), id, runState, now)
  {
    hide SettledAs, FinishJob, LoadJob;
    if s.jobs[id].state.CancelRequested? || runState.RunCancelled? {
      CancelledIsSettled(s, id, runState, now);
    } else if s.jobs[id].schedule.RecurringInterval? {
      RecurringIsSettled(s, id, runState, now);
    } else {
      OneShotIsSettled(s, id, runState, now);
    }
  }

  lemma FinishedStays(s: StoreState, id: JobId, runState: RunState, now: UtcTimestamp)
    requires id in s.jobs && s.jobs[id].state.IsTerminal()
    ensures SettledAs(s, s, id, runState, now)
  {}

  ghost predicate SettledAfter(s: StoreState, after: StoreState, id: JobId, runState: RunState, oracle: Oracle) {
    if LoadJob(s, id).Err? then after == s
    else SettledAs(s, after, id, runState, oracle(MonFinishWrite(s.jobs[id], runState)).now)
  }

  /** Settles the job after its run; a finished job is left alone. */
  method Finish(store: JobStore, job: JobSnapshot, runState: RunState, oracle: Oracle)
    returns (ghost steps: nat, ghost deeds: seq<Deed>)
    requires store.Valid()
    modifies store
    ensures store.Valid()
    ensures Solo(old(store.State()), MonFinishLoad(job, runState), oracle, steps) == Place(store.State(), None, deeds)
    ensures deeds == []
    ensures SettledAfter(old(store.State()), store.State(), job.id, runState, oracle)
  {
    hide Solo, Act, JobTransitioned, RecurringAdvanced, Reason.Text, SettledAs;
    ghost var s0, c0 := store.State(), MonFinishLoad(job, runState);
    deeds := [];
    NoStep(s0, c0, oracle);
    MonActs(s0, c0, oracle, s0, c0, 0, deeds);
    steps := 1;
    var loaded := store.Load(job.id);
    if loaded.Err? {
      return;
    }
    var current := loaded.value.Snapshot();
    if current.state.IsTerminal() {
      FinishedStays(s0, job.id, runState, oracle(MonFinishWrite(current, runState)).now);
      return;
    }
    MonActs(s0, MonFinishWrite(current, runState), oracle, s0, c0, 1, deeds);
    steps := 2;
    var now := oracle(MonFinishWrite(current, runState)).now;
    if current.state.CancelRequested? || runState.RunCancelled? {
      var _ := Transit(store, current, JobState.Cancelled, Monitor, CancelledRunFinished, now);
    } else if current.schedule.RecurringInterval? {
      var _ := store.AdvanceRecurringJob(current.id, current.revision, now);
    } else {
      match runState
      case RunSucceeded =>
        var _ := Transit(store, current, Succeeded, Monitor, CommandSucceeded, now);
      case RunFailed =>
        var _ := Transit(store, current, JobState.Failed, Monitor, CommandFailed, now);
      case RunInterrupted =>
        var _ := Transit(store, current, JobState.Interrupted, Monitor, OutcomeUnknown, now);
      case _ =>
    }
    FinishJobSettles(s0, job.id, runState, now);
  }

  /** The whole monitor process: nothing for a run of another job; otherwise the run is executed, and
      when that went through to a recorded outcome, the job is settled by it. */
  ghost predicate MonitoredAs(s: StoreState, after: StoreState, id: JobId, runId: RunId, oracle: Oracle) {
    var job, run := LoadJob(s, id), LoadRun(s, runId);
    if job.Err? || run.Err? || run.value.jobId != job.value.id then after == s
    else
      exists mid, ended, deeds ::
        && ExecutedAs(s, mid, job.value, run.value, oracle, ended, deeds)
        && if ended.None? then after == mid else SettledAfter(mid, after, id, ended.value, oracle)
  }

  /** The whole monitor process. */
  method RunMonitorProcess(store: JobStore, id: JobId, runId: RunId, oracle: Oracle)
    returns (ghost steps: nat, ghost deeds: seq<Deed>)
    requires store.Valid()
    modifies store
    ensures store.Valid()
    ensures Solo(old(store.State()), MonLoadJob(id, runId), oracle, steps) == Place(store.State(), None, deeds)
    ensures MonitoredAs(old(store.State()), store.State(), id, runId, oracle)
  {
    hide Solo, Act, LoadRun, ExecutedAs, SettledAfter;
    ghost var s0, c0 := store.State(), MonLoadJob(id, runId);
    deeds := [];
    NoStep(s0, c0, oracle);
    MonActs(s0, c0, oracle, s0, c0, 0, deeds);
    steps := 1;
    var loaded := store.Load(id);
    if loaded.Err? {
      return;
    }
    var job := loaded.value.Snapshot();
    MonActs(s0, MonLoadRun(job, runId), oracle, s0, c0, 1, deeds);
    steps := 2;
    var run := LoadRun(store.State(), runId);
    if run.Err? || run.value.jobId != job.id {
      return;
    }
    ghost var more, extra;
    var ended;
    ended, more, extra := Execute(store, job, run.value, oracle);
    SoloJoins(s0, c0, oracle, steps, more);
    steps, deeds := steps + more, deeds + extra;
    if ended.None? {
      return;
    }
    more, extra := Finish(store, job, ended.value, oracle);
    SoloJoins(s0, c0, oracle, steps, more);
    steps, deeds := steps + more, deeds + extra;
  }
}
