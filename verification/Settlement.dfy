/** How a job ended tells how its run ended: no program ever writes Succeeded, Failed or Interrupted
    into a job without a run of that job that ended so. */
module Settlement {
  import opened Wrappers
  import opened Primitives
  import opened Transitions
  import opened Jobs
  import opened Runs
  import opened Store
  import opened History
  import opened Protocol
  import opened RunMoves
  import opened RunSafety
  import opened RunOwnership
  import opened JobSafety
  import Claims
  import opened OutcomeSafety

  /** Some run of the job has ended in this state. */
  ghost predicate RunEndedAs(s: StoreState, job: JobId, state: RunState) {
    exists r :: r in s.runs && s.runs[r].jobId == job && s.runs[r].state == state
  }

  /** The run that must stand behind a job's end. */
  ghost predicate Backed(s: StoreState, job: JobId, to: JobState) {
    && (to.Succeeded? ==> RunEndedAs(s, job, RunSucceeded))
    && (to.Failed? ==> RunEndedAs(s, job, RunFailed))
    && (to.Interrupted? ==> RunEndedAs(s, job, RunInterrupted))
  }

  /** What a program holds belongs together, and what it is about to write is backed. */
  ghost predicate Truthful(s: StoreState, c: Client) {
    && (HoldsRun(c) ==> c.run.jobId == c.job.id)
    && ((c.CanRequest? || c.CanReload?) && c.active.Some? ==> c.active.value.jobId == c.job.id)
    && (c.CanPoll? && c.runId in s.runs ==> s.runs[c.runId].jobId == c.job.id)
    && (c.CanPoll? ==> c.runId in s.runs)
    && (c.MonFinishLoad? || c.MonFinishWrite? ==> c.runState.IsTerminal() && RunEndedAs(s, c.job.id, c.runState))
    && (c.CanFinishLoad? ==> c.runState.IsTerminal() && RunEndedAs(s, c.job.id, c.runState))
    && (c.CanFinishWrite? ==>
        Backed(s, c.job.id, c.target) && (c.target.Cancelled? ==> RunEndedAs(s, c.job.id, RunCancelled)))
    && (c.DueFailJob? ==> RunEndedAs(s, c.job.id, RunFailed))
  }

  ghost predicate RowsBacked(s: StoreState) {
    forall id, k | 0 <= k < |HistoryOf(s, id)| :: Backed(s, id, HistoryOf(s, id)[k].to)
  }

  ghost predicate SettlementInv(w: World) {
    RowsBacked(w.store) && forall c :: c in w.clients ==> Truthful(w.store, w.clients[c])
  }

  // ----- what a later store keeps

  lemma EndStays(s: StoreState, s': StoreState, job: JobId, state: RunState)
    requires RunsOk(s) && RunsLater(s, s') && state.IsTerminal() && RunEndedAs(s, job, state)
    ensures RunEndedAs(s', job, state)
  {
    var r :| r in s.runs && s.runs[r].jobId == job && s.runs[r].state == state;
    assert RunSeen(s', s.runs[r]);
    assert r in s'.runs && s'.runs[r].jobId == job && s'.runs[r].state == state;
  }

  lemma BackedStays(s: StoreState, s': StoreState, job: JobId, to: JobState)
    requires RunsOk(s) && RunsLater(s, s') && Backed(s, job, to)
    ensures Backed(s', job, to)
  {
    hide RunEndedAs, RunsLater, RunsOk;
    if to.Succeeded? { EndStays(s, s', job, RunSucceeded); }
    if to.Failed? { EndStays(s, s', job, RunFailed); }
    if to.Interrupted? { EndStays(s, s', job, RunInterrupted); }
  }

  lemma TruthStays(s: StoreState, s': StoreState, c: Client)
    requires RunsOk(s) && RunsLater(s, s') && Truthful(s, c)
    ensures Truthful(s', c)
  {
    if c.CanPoll? { assert RunSeen(s', s.runs[c.runId]); }
    hide RunEndedAs, Backed, RunsLater, RunsOk;
    if c.MonFinishLoad? || c.MonFinishWrite? || c.CanFinishLoad? { EndStays(s, s', c.job.id, c.runState); }
    if c.CanFinishWrite? {
      BackedStays(s, s', c.job.id, c.target);
      if c.target.Cancelled? { EndStays(s, s', c.job.id, RunCancelled); }
    }
    if c.DueFailJob? { EndStays(s, s', c.job.id, RunFailed); }
  }

  // ----- what a step writes into the jobs

  /** Every job that changes takes a state that is backed. */
  ghost predicate ChangesBacked(s: StoreState, s': StoreState) {
    forall id :: id in s.jobs && id in s'.jobs && s'.jobs[id] != s.jobs[id] ==> Backed(s, id, s'.jobs[id].state)
  }

  lemma TransitionIsBacked(s: StoreState, job: JobSnapshot, to: JobState, actor: Actor, reason: string,
                           now: UtcTimestamp)
    requires LegalStore(s) && Backed(s, job.id, to)
    ensures ChangesBacked(s, JobTransitioned(s, job.id, job.revision, to, false, actor, reason, now).0)
  {
    TransitionIsExact(s, job.id, job.revision, to, false, actor, reason, now);
    hide JobTransitioned, Backed, LegalHistory;
  }

  lemma AdvanceIsBacked(s: StoreState, job: JobSnapshot, now: UtcTimestamp)
    requires LegalStore(s)
    ensures ChangesBacked(s, RecurringAdvanced(s, job.id, job.revision, now).0)
  {
    AdvancingIsExact(s, job.id, job.revision, now);
    hide RecurringAdvanced, LegalHistory, RunEndedAs;
  }

  lemma SameJobsAreBacked(s: StoreState, s': StoreState)
    requires s'.jobs == s.jobs
    ensures ChangesBacked(s, s')
  {}

  lemma SettlingIsBacked(s: StoreState, job: JobSnapshot, runState: RunState, now: UtcTimestamp)
    requires LegalStore(s) && runState.IsTerminal() && RunEndedAs(s, job.id, runState)
    ensures ChangesBacked(s, FinishJob(s, job, runState, now))
  {
    hide LegalStore, ChangesBacked, JobTransitioned, RecurringAdvanced, RunEndedAs, Reason.Text;
    SameJobsAreBacked(s, s);
    AdvanceIsBacked(s, job, now);
    TransitionIsBacked(s, job, JobState.Cancelled, Monitor, CancelledRunFinished.Text(), now);
    if runState.RunSucceeded? { TransitionIsBacked(s, job, Succeeded, Monitor, CommandSucceeded.Text(), now); }
    if runState.RunFailed? { TransitionIsBacked(s, job, JobState.Failed, Monitor, CommandFailed.Text(), now); }
    if runState.RunInterrupted? {
      TransitionIsBacked(s, job, JobState.Interrupted, Monitor, OutcomeUnknown.Text(), now);
    }
  }

  lemma DueChangesBacked(s: StoreState, c: Client, ch: Choice)
    requires LegalStore(s) && Truthful(s, c) && IsSupervisor(c)
    ensures ChangesBacked(s, DueStep(s, c, ch).store)
  {
    hide LegalStore, ChangesBacked, JobTransitioned, RunEndedAs, Reason.Text;
    hide LoadJob, RunClaimed, PlanTerminal, TerminalWrite;
    SameJobsAreBacked(s, s);
    match c
    case DueWaiting(job, now) => TransitionIsBacked(s, job, Waiting, Supervisor, LoadedDeadline.Text(), now);
    case DueStarting(job, now) => TransitionIsBacked(s, job, Starting, Supervisor, DeadlineDue.Text(), now);
    case DueRunning(job, run, now) => TransitionIsBacked(s, job, Running, Supervisor, MonitorClaimed.Text(), now);
    case DueFailJob(job, at) => TransitionIsBacked(s, job, JobState.Failed, Supervisor, MonitorLost.Text(), at);
    case DueClaim(job, now) =>
      ClaimKeepsJobs(s, job.id, job.nextDue, now, ch.runId, ch.token);
      SameJobsAreBacked(s, DueStep(s, c, ch).store);
    case DueFailWrite(job, seen, finishedAt) =>
      TerminalWriteKeepsJobs(s, seen, finishedAt, SPAWN_FAILED);
      SameJobsAreBacked(s, DueStep(s, c, ch).store);
    case _ =>
  }

  lemma MonChangesBacked(s: StoreState, c: Client, ch: Choice)
    requires LegalStore(s) && Truthful(s, c) && IsMonitor(c)
    ensures ChangesBacked(s, MonStep(s, c, ch).store)
  {
    hide LegalStore, ChangesBacked, FinishJob, RunEndedAs, LoadJob, LoadRun, LoadClaimed, Started, WriteRunning;
    hide PlanTerminal, TerminalWrite, CompletionOutcome;
    match c
    case MonMarkWrite(job, seen, facts) =>
      MarkKeepsJobs(s, seen, facts);
      SameJobsAreBacked(s, MonStep(s, c, ch).store);
    case MonRecordWrite(job, seen, finishedAt, outcome) =>
      TerminalWriteKeepsJobs(s, seen, finishedAt, outcome);
      SameJobsAreBacked(s, MonStep(s, c, ch).store);
    case MonFinishWrite(job, runState) => SettlingIsBacked(s, job, runState, ch.now);
    case _ => SameJobsAreBacked(s, s);
  }

  lemma CanChangesBacked(s: StoreState, c: Client, ch: Choice)
    requires LegalStore(s) && Truthful(s, c) && (c.CanRequest? || c.CanNoRun? || c.CanFinishWrite?)
    ensures ChangesBacked(s, CanStep(s, c, ch).store)
  {
    hide LegalStore, ChangesBacked, JobTransitioned, RunEndedAs, Reason.Text;
    SameJobsAreBacked(s, s);
    match c
    case CanRequest(job, _, _) => TransitionIsBacked(s, job, CancelRequested, Cli, CancelAsked.Text(), ch.now);
    case CanNoRun(job, now) => TransitionIsBacked(s, job, JobState.Cancelled, Cli, CancelledEarly.Text(), now);
    case CanFinishWrite(job, target) => TransitionIsBacked(s, job, target, Cli, CancellationFinished.Text(), ch.now);
  }

  lemma CanKeepsJobs(s: StoreState, c: Client, ch: Choice)
    requires !IsSupervisor(c) && !IsMonitor(c) && !c.CanRequest? && !c.CanNoRun? && !c.CanFinishWrite?
    ensures CanStep(s, c, ch).store.jobs == s.jobs
  {
    hide LoadJob, LoadRun, LoadClaimed, PlanRequest, PlanTerminal, TerminalWrite, LatestActiveRun;
    if c.CanRecordWrite? { TerminalWriteKeepsJobs(s, c.run, c.finishedAt, CANCELLED_EARLY); }
  }

  lemma StepChangesBacked(s: StoreState, c: Client, ch: Choice)
    requires LegalStore(s) && Truthful(s, c)
    ensures ChangesBacked(s, Act(s, c, ch).store)
  {
    ActOf(s, c, ch);
    hide Act, DueStep, MonStep, CanStep, LegalStore, Truthful, ChangesBacked;
    if IsSupervisor(c) { DueChangesBacked(s, c, ch); }
    else if IsMonitor(c) { MonChangesBacked(s, c, ch); }
    else if c.CanRequest? || c.CanNoRun? || c.CanFinishWrite? { CanChangesBacked(s, c, ch); }
    else {
      CanKeepsJobs(s, c, ch);
      SameJobsAreBacked(s, CanStep(s, c, ch).store);
    }
  }

  // ----- where a step leads

  ghost predicate NextTruthful(e: Effect) {
    e.next.Some? ==> Truthful(e.store, e.next.value)
  }

  /** The stored row of a run, and the job it belongs to. */
  lemma RowOf(s: StoreState, run: Run)
    requires RunSeen(s, run)
    ensures run.id in s.runs && s.runs[run.id].jobId == run.jobId
  {}

  lemma RecordedIsEnded(s: StoreState, run: Run, finishedAt: UtcTimestamp, outcome: RunOutcome)
    requires RunsOk(s) && RunSeen(s, run)
    ensures var plan := PlanTerminal(s, run.id, run.claimToken, finishedAt, outcome);
      && (plan.AlreadyRecorded? ==>
            plan.run.state == OutcomeState(outcome) && plan.run.state.IsTerminal()
            && RunEndedAs(s, run.jobId, plan.run.state))
      && (plan.WriteOutcome? ==> s.runs[run.id].jobId == run.jobId)
  {
    RowOf(s, run);
    assert Consistent(s.runs[run.id]);
    hide RunSeen, Rehydrate, WithOutcome;
  }

  lemma WrittenIsEnded(s: StoreState, run: Run, finishedAt: UtcTimestamp, outcome: RunOutcome)
    requires RunsOk(s) && RunSeen(s, run) && !run.state.IsTerminal() && WithOutcome(run, finishedAt, outcome).Ok?
    ensures var after := TerminalWrite(s, run, finishedAt, outcome);
      after.Some? ==> OutcomeState(outcome).IsTerminal() && run.id in after.value.runs
                      && after.value.runs[run.id].jobId == run.jobId
                      && RunEndedAs(after.value, run.jobId, OutcomeState(outcome))
  {
    RowOf(s, run);
    StaleTerminalWriteIsLegal(s, run, finishedAt, outcome);
    OutcomeMeansState(outcome);
    hide RunsOk, RunSeen, WithOutcome, TerminalWrite, OutcomeState, Consistent;
  }

  lemma ClaimIsTruthful(s: StoreState, c: Client, ch: Choice)
    requires c.DueClaim?
    ensures NextTruthful(DueStep(s, c, ch))
  {
    ClaimIsExact(s, c.job.id, c.job.nextDue, c.now, ch.runId, ch.token);
    hide RunClaimed, CanClaim, HighestSequence;
  }

  lemma DueFailsTruthfully(s: StoreState, c: Client, ch: Choice)
    requires RunsOk(s) && RunClientOk(s, c) && Truthful(s, c) && (c.DueFailRead? || c.DueFailWrite?)
    ensures NextTruthful(DueStep(s, c, ch))
  {
    OutcomeMeansState(SPAWN_FAILED);
    hide RunsOk, RunSeen, PlanTerminal, TerminalWrite, WithOutcome, RunEndedAs, OutcomeState, Backed;
    if c.DueFailRead? { RecordedIsEnded(s, c.run, c.finishedAt, SPAWN_FAILED); }
    else { WrittenIsEnded(s, c.run, c.finishedAt, SPAWN_FAILED); }
  }

  lemma MovedIsItself(s: StoreState, job: JobSnapshot, to: JobState, actor: Actor, reason: string, now: UtcTimestamp)
    requires LegalStore(s)
    ensures var r := JobTransitioned(s, job.id, job.revision, to, false, actor, reason, now).1;
      r.Ok? ==> r.value.id == job.id
  {
    TransitionIsExact(s, job.id, job.revision, to, false, actor, reason, now);
    hide JobTransitioned, LegalHistory;
  }

  lemma DueRunsTruthfully(s: StoreState, c: Client, ch: Choice)
    requires LegalStore(s) && Truthful(s, c) && (c.DueRunning? || c.DueSpawn?)
    ensures NextTruthful(DueStep(s, c, ch))
  {
    hide LegalStore, JobTransitioned, Reason.Text, RunEndedAs, Backed;
    if c.DueRunning? { MovedIsItself(s, c.job, Running, Supervisor, MonitorClaimed.Text(), c.now); }
  }

  lemma DueGoesOnTruthfully(s: StoreState, c: Client, ch: Choice)
    requires c.DueLoad? || c.DueWaiting? || c.DueStarting? || c.DueFailJob?
    ensures NextTruthful(DueStep(s, c, ch))
  {
    hide LoadJob, JobTransitioned, Reason.Text, RunEndedAs, Backed;
  }

  lemma MonRecordsTruthfully(s: StoreState, c: Client, ch: Choice)
    requires RunsOk(s) && RunClientOk(s, c) && Truthful(s, c) && (c.MonRecordRead? || c.MonRecordWrite?)
    ensures NextTruthful(MonStep(s, c, ch))
  {
    hide RunsOk, RunSeen, PlanTerminal, TerminalWrite, WithOutcome, RunEndedAs, OutcomeState, Backed;
    if c.MonRecordRead? { RecordedIsEnded(s, c.run, c.finishedAt, c.outcome); }
    else { WrittenIsEnded(s, c.run, c.finishedAt, c.outcome); }
  }

  lemma MonMarksTruthfully(s: StoreState, c: Client, ch: Choice)
    requires RunsOk(s) && RunClientOk(s, c) && Truthful(s, c) && (c.MonMarkRead? || c.MonMarkWrite?)
    ensures NextTruthful(MonStep(s, c, ch))
  {
    hide RunsOk, RunPhase, RunEndedAs, Backed, WriteRunning;
    RowOf(s, c.run);
    hide RunSeen;
    ClaimedIsSeen(s, c.run.id, c.run.claimToken);
    hide LoadClaimed, ValidIdentity, ValidLogPath;
  }

  lemma MonFinishesTruthfully(s: StoreState, c: Client, ch: Choice)
    requires LegalStore(s) && Truthful(s, c) && (c.MonFinishLoad? || c.MonFinishWrite?)
    ensures NextTruthful(MonStep(s, c, ch))
  {
    hide LegalStore, RunEndedAs, Backed, LoadJob, FinishJob;
    if c.MonFinishLoad? { LoadedIsItself(s, c.job.id); }
  }

  lemma MonGoesOnTruthfully(s: StoreState, c: Client, ch: Choice)
    requires Truthful(s, c)
    requires c.MonLoadJob? || c.MonLoadRun? || c.MonCheck? || c.MonPrepare? || c.MonWait? || c.MonObserve?
    ensures NextTruthful(MonStep(s, c, ch))
  {
    hide RunEndedAs, Backed, LoadJob, LoadRun, LoadClaimed, CompletionOutcome;
  }

  lemma LoadedIsItself(s: StoreState, id: JobId)
    requires LegalStore(s)
    ensures LoadJob(s, id).Ok? ==> LoadJob(s, id).value.id == id
  {}

  lemma CanFinishesTruthfully(s: StoreState, c: Client, ch: Choice)
    requires LegalStore(s) && Truthful(s, c) && (c.CanFinishLoad? || c.CanFinishWrite? || c.CanNoRun?)
    ensures NextTruthful(CanStep(s, c, ch))
  {
    hide LegalStore, LoadJob, JobTransitioned, Reason.Text, RunEndedAs;
    if c.CanFinishLoad? { LoadedIsItself(s, c.job.id); }
  }

  lemma CanMovesTruthfully(s: StoreState, c: Client, ch: Choice)
    requires LegalStore(s) && Truthful(s, c) && (c.CanResolve? || c.CanActive? || c.CanRequest? || c.CanReload?)
    ensures NextTruthful(CanStep(s, c, ch))
  {
    hide LegalStore, LoadJob, JobTransitioned, Reason.Text, RunEndedAs, Backed, LatestActiveRun;
    if c.CanRequest? { MovedIsItself(s, c.job, CancelRequested, Cli, CancelAsked.Text(), ch.now); }
    if c.CanReload? { LoadedIsItself(s, c.job.id); }
    if c.CanActive? { LatestIsOfJob(s, c.job.id); }
  }

  lemma LatestIsOfJob(s: StoreState, job: JobId)
    ensures LatestActiveRun(s, job).Some? ==> LatestActiveRun(s, job).value.jobId == job
  {}

  lemma CanRunsTruthfully(s: StoreState, c: Client, ch: Choice)
    requires RunsOk(s) && RunClientOk(s, c) && Truthful(s, c) && (c.CanRunLoad? || c.CanCommitRead?)
    ensures NextTruthful(CanStep(s, c, ch))
  {
    hide RunsOk, RunPhase, RunEndedAs, Backed;
    RowOf(s, c.run);
    hide RunSeen;
    ClaimedIsSeen(s, c.run.id, c.run.claimToken);
    hide LoadClaimed;
  }

  lemma CanCommitsTruthfully(s: StoreState, c: Client, ch: Choice)
    requires Truthful(s, c) && c.CanCommitWrite?
    ensures NextTruthful(CanStep(s, c, ch))
  {
    hide WriteRequested, RunEndedAs, Backed;
  }

  lemma CanRecordsTruthfully(s: StoreState, c: Client, ch: Choice)
    requires RunsOk(s) && RunClientOk(s, c) && Truthful(s, c) && (c.CanRecordRead? || c.CanRecordWrite?)
    ensures NextTruthful(CanStep(s, c, ch))
  {
    hide RunsOk, RunEndedAs, Backed, PlanTerminal, TerminalWrite, WithOutcome, OutcomeState;
    RowOf(s, c.run);
    hide RunSeen;
    if c.CanRecordRead? { RecordedIsEnded(s, c.run, ch.now, CANCELLED_EARLY); }
    else { WrittenIsEnded(s, c.run, c.finishedAt, CANCELLED_EARLY); }
  }

  lemma PollIsTruthful(s: StoreState, c: Client, ch: Choice)
    requires Truthful(s, c) && c.CanPoll?
    ensures NextTruthful(CanStep(s, c, ch))
  {
    assert LoadRun(s, c.runId).Ok? && LoadRun(s, c.runId).value.state.IsTerminal() ==>
      RunEndedAs(s, c.job.id, LoadRun(s, c.runId).value.state);
    hide RunEndedAs, Backed, LoadRun;
  }

  lemma CanWaitsTruthfully(s: StoreState, c: Client, ch: Choice)
    requires IsSignalling(c) && RunSeen(s, c.run) && Truthful(s, c)
    ensures NextTruthful(CanStep(s, c, ch))
  {
    RowOf(s, c.run);
    hide RunSeen, RunEndedAs, Backed;
  }

  lemma DueIsTruthful(s: StoreState, c: Client, ch: Choice)
    requires RunsOk(s) && LegalStore(s) && RunClientOk(s, c) && Truthful(s, c) && IsSupervisor(c)
    ensures NextTruthful(DueStep(s, c, ch))
  {
    hide DueStep, RunsOk, LegalStore, RunClientOk, Truthful, NextTruthful;
    if c.DueClaim? { ClaimIsTruthful(s, c, ch); }
    else if c.DueFailRead? || c.DueFailWrite? { DueFailsTruthfully(s, c, ch); }
    else if c.DueRunning? || c.DueSpawn? { DueRunsTruthfully(s, c, ch); }
    else { DueGoesOnTruthfully(s, c, ch); }
  }

  lemma MonIsTruthful(s: StoreState, c: Client, ch: Choice)
    requires RunsOk(s) && LegalStore(s) && RunClientOk(s, c) && Truthful(s, c) && IsMonitor(c)
    ensures NextTruthful(MonStep(s, c, ch))
  {
    hide MonStep, RunsOk, LegalStore, RunClientOk, Truthful, NextTruthful;
    if c.MonRecordRead? || c.MonRecordWrite? { MonRecordsTruthfully(s, c, ch); }
    else if c.MonMarkRead? || c.MonMarkWrite? { MonMarksTruthfully(s, c, ch); }
    else if c.MonFinishLoad? || c.MonFinishWrite? { MonFinishesTruthfully(s, c, ch); }
    else { MonGoesOnTruthfully(s, c, ch); }
  }

  lemma CanIsTruthful(s: StoreState, c: Client, ch: Choice)
    requires RunsOk(s) && LegalStore(s) && RunClientOk(s, c) && Truthful(s, c) && !IsSupervisor(c) && !IsMonitor(c)
    ensures NextTruthful(CanStep(s, c, ch))
  {
    if IsSignalling(c) { assert RunSeen(s, c.run); }
    hide CanStep, RunsOk, LegalStore, RunClientOk, Truthful, NextTruthful, RunSeen;
    if c.CanRunLoad? || c.CanCommitRead? { CanRunsTruthfully(s, c, ch); }
    else if c.CanCommitWrite? { CanCommitsTruthfully(s, c, ch); }
    else if c.CanRecordRead? || c.CanRecordWrite? { CanRecordsTruthfully(s, c, ch); }
    else if IsSignalling(c) { CanWaitsTruthfully(s, c, ch); }
    else if c.CanPoll? { PollIsTruthful(s, c, ch); }
    else if c.CanFinishLoad? || c.CanFinishWrite? || c.CanNoRun? { CanFinishesTruthfully(s, c, ch); }
    else { CanMovesTruthfully(s, c, ch); }
  }

  lemma StepIsTruthful(s: StoreState, c: Client, ch: Choice)
    requires RunsOk(s) && LegalStore(s) && RunClientOk(s, c) && Truthful(s, c)
    ensures NextTruthful(Act(s, c, ch))
  {
    ActOf(s, c, ch);
    hide Act, DueStep, MonStep, CanStep, RunsOk, LegalStore, RunClientOk, Truthful, NextTruthful;
    if IsSupervisor(c) { DueIsTruthful(s, c, ch); }
    else if IsMonitor(c) { MonIsTruthful(s, c, ch); }
    else { CanIsTruthful(s, c, ch); }
  }

  // ----- the whole system

  lemma RowsStayBacked(s: StoreState, s': StoreState)
    requires RestrainedStore(s) && RunsOk(s) && RowsBacked(s) && JobMove(s, s') && RunsLater(s, s')
      && ChangesBacked(s, s')
    ensures RowsBacked(s')
  {
    hide RestrainedStore, RunsOk, RunsLater, Backed;
    forall id, k | 0 <= k < |HistoryOf(s', id)| ensures Backed(s', id, HistoryOf(s', id)[k].to) {
      if k < |HistoryOf(s, id)| && HistoryOf(s, id)[k] == HistoryOf(s', id)[k] {
        BackedStays(s, s', id, HistoryOf(s, id)[k].to);
      } else {
        NewRowIsState(s, s', id, k);
        BackedStays(s, s', id, s'.jobs[id].state);
      }
    }
  }

  /** A row that was not there before repeats the state of its job. */
  lemma NewRowIsState(s: StoreState, s': StoreState, id: JobId, k: nat)
    requires JobMove(s, s') && k < |HistoryOf(s', id)|
    requires !(k < |HistoryOf(s, id)| && HistoryOf(s, id)[k] == HistoryOf(s', id)[k])
    ensures id in s.jobs && id in s'.jobs && s'.jobs[id] != s.jobs[id] && HistoryOf(s', id)[k].to == s'.jobs[id].state
  {
    var moved :| MovesJob(s, s', moved);
    assert forall j | 0 <= j < |HistoryOf(s, moved)| ::
      HistoryOf(s', moved)[j] == HistoryOf(s', moved)[..|HistoryOf(s, moved)|][j];
  }

  lemma StepKeepsRowsBacked(w: World, e: Event)
    requires RunInv(w) && JobInv(w) && SettlementInv(w) && e.Step? && e.client in w.clients
    ensures RowsBacked(Apply(w, e).store) && RunsLater(w.store, Apply(w, e).store)
  {
    hide Act, Apply, JobClientOk, RunClientOk, Moves, RunsOk, RestrainedStore, JobSafety.ClaimsOk, Truthful, RowsBacked;
    hide JobMove, ChangesBacked, RunsLater, RequestedOk;
    var c := w.clients[e.client];
    AfterEffects(w, e);
    ClientInv(w, e.client);
    LegalIn(w.store);
    StepMoves(w.store, c, e.choice);
    StepChangesBacked(w.store, c, e.choice);
    var m := StepHasMove(w, e);
    MoveIsRunsLater(w.store, Apply(w, e).store, m);
    RowsStayBacked(w.store, Apply(w, e).store);
  }

  lemma LegalIn(s: StoreState)
    requires RestrainedStore(s)
    ensures LegalStore(s)
  {}

  lemma NewMonitorIsTruthful(s: StoreState, c: Client)
    ensures c.DueSpawn? ==> Truthful(s, MonLoadJob(c.job.id, c.run.id))
  {}

  lemma StepKeepsSettlement(w: World, e: Event)
    requires RunInv(w) && JobInv(w) && SettlementInv(w) && e.Step? && e.client in w.clients && e.child !in w.clients
    ensures SettlementInv(Apply(w, e))
  {
    StepKeepsRowsBacked(w, e);
    hide Act, Apply, JobClientOk, RunClientOk, RunsOk, RestrainedStore;
    hide JobSafety.ClaimsOk, Truthful, RowsBacked, RunsLater;
    hide RequestedOk;
    var c, w' := w.clients[e.client], Apply(w, e);
    var effect := Act(w.store, c, e.choice);
    ClientInv(w, e.client);
    LegalIn(w.store);
    StepIsTruthful(w.store, c, e.choice);
    AfterStep(w, e);
    OnlyMonitorsAreSpawned(w.store, c, e.choice);
    forall d | d in w'.clients ensures Truthful(w'.store, w'.clients[d]) {
      if d == e.child && effect.spawned == Some(w'.clients[d]) { NewMonitorIsTruthful(w'.store, c); }
      else if effect.next != Some(w'.clients[d]) { TruthStays(w.store, w'.store, w.clients[d]); }
    }
  }

  lemma SameRunsTellTheSame(s: StoreState, s': StoreState)
    requires s'.runs == s.runs
    ensures forall job, state :: RunEndedAs(s', job, state) <==> RunEndedAs(s, job, state)
    ensures forall job, to :: Backed(s', job, to) <==> Backed(s, job, to)
  {}

  lemma SameRunsSameTruth(s: StoreState, s': StoreState, c: Client)
    requires s'.runs == s.runs && Truthful(s, c)
    ensures Truthful(s', c)
  {
    SameRunsTellTheSame(s, s');
    hide Backed, RunEndedAs;
  }

  lemma NewcomerIsTruthful(s: StoreState, program: Client)
    requires program.DueLoad? || program.CanResolve? || program.MonLoadJob?
    ensures Truthful(s, program)
  {}

  lemma SameHistoryStaysBacked(s: StoreState, s': StoreState)
    requires RowsBacked(s) && s'.runs == s.runs && s'.history == s.history
    ensures RowsBacked(s')
  {
    SameRunsTellTheSame(s, s');
    hide Backed;
    assert forall id :: HistoryOf(s', id) == HistoryOf(s, id);
  }

  lemma OtherEventsKeepSettlement(mode: Mode, w: World, e: Event)
    requires SettlementInv(w) && Enabled(mode, w, e) && !e.Step?
    ensures SettlementInv(Apply(w, e))
  {
    var w' := Apply(w, e);
    assert w'.store.runs == w.store.runs && w'.store.history == w.store.history;
    hide Truthful, RowsBacked, JobCreated;
    SameHistoryStaysBacked(w.store, w'.store);
    forall c | c in w'.clients ensures Truthful(w'.store, w'.clients[c]) {
      if c in w.clients && w.clients[c] == w'.clients[c] { SameRunsSameTruth(w.store, w'.store, w.clients[c]); }
      else { NewcomerIsTruthful(w'.store, w'.clients[c]); }
    }
  }

  lemma NextKeepsSettlement(mode: Mode, before: World, after: World)
    requires RunInv(before) && JobInv(before) && SettlementInv(before) && Next(mode, before, after)
    ensures SettlementInv(after)
  {
    hide RunInv, JobInv, SettlementInv, Apply;
    var e := EventBetween(mode, before, after);
    if e.Step? { StepKeepsSettlement(before, e); } else { OtherEventsKeepSettlement(mode, before, e); }
  }

  lemma NothingSettledYet(w: World)
    requires Initial(w)
    ensures SettlementInv(w)
  {}

  lemma {:induction false} TraceKeepsSettlement(mode: Mode, ws: seq<World>, i: nat)
    requires Trace(mode, ws) && i < |ws|
    ensures SettlementInv(ws[i])
  {
    hide RunInv, JobInv, SettlementInv, Initial, Next;
    if i == 0 {
      NothingSettledYet(ws[0]);
    } else {
      TraceKeepsSettlement(mode, ws, i - 1);
      TraceKeepsRuns(mode, ws, i - 1);
      TraceKeepsJobs(mode, ws, i - 1);
      NextKeepsSettlement(mode, ws[i - 1], ws[i]);
    }
  }

  // ----- results

  /** In every run of the system: whoever wrote it and whenever, a row that makes a job Succeeded,
      Failed or Interrupted has a run of that job behind it that ended so. */
  lemma JobEndsTellRuns(mode: Mode, ws: seq<World>, i: nat, id: JobId, k: nat)
    requires Trace(mode, ws) && i < |ws| && k < |HistoryOf(ws[i].store, id)|
    ensures var to := HistoryOf(ws[i].store, id)[k].to;
      && (to.Succeeded? ==> RunEndedAs(ws[i].store, id, RunSucceeded))
      && (to.Failed? ==> RunEndedAs(ws[i].store, id, RunFailed))
      && (to.Interrupted? ==> RunEndedAs(ws[i].store, id, RunInterrupted))
  {
    TraceKeepsSettlement(mode, ws, i);
    hide RunEndedAs, Trace, Truthful;
    assert Backed(ws[i].store, id, HistoryOf(ws[i].store, id)[k].to);
  }

  /** The state of a run that a job ends with. */
  predicate SameEnd(job: JobState, run: RunState) {
    || (job.Succeeded? && run.RunSucceeded?)
    || (job.Failed? && run.RunFailed?)
    || (job.Interrupted? && run.RunInterrupted?)
  }

  /** A one-shot job that has ended so has one run only, and that run ended the same way. */
  lemma OneShotEndsAsItsRun(mode: Mode, ws: seq<World>, i: nat, id: JobId) returns (r: RunId)
    requires Trace(mode, ws) && i < |ws| && id in ws[i].store.jobs
    requires !ws[i].store.jobs[id].schedule.RecurringInterval?
    requires var state := ws[i].store.jobs[id].state; state.Succeeded? || state.Failed? || state.Interrupted?
    ensures r in ws[i].store.runs && ws[i].store.runs[r].jobId == id
    ensures SameEnd(ws[i].store.jobs[id].state, ws[i].store.runs[r].state)
    ensures forall q :: q in ws[i].store.runs && ws[i].store.runs[q].jobId == id ==> q == r
  {
    TraceKeepsJobs(mode, ws, i);
    var s := ws[i].store;
    LegalIn(s);
    var k := LastRowIsState(s, id);
    JobEndsTellRuns(mode, ws, i, id, k);
    hide Trace, JobInv, LegalStore, RestrainedStore;
    var state := s.jobs[id].state;
    var end := if state.Succeeded? then RunSucceeded else if state.Failed? then RunFailed else RunInterrupted;
    assert RunEndedAs(s, id, end);
    r :| r in s.runs && s.runs[r].jobId == id && s.runs[r].state == end;
    forall q | q in s.runs && s.runs[q].jobId == id ensures q == r {
      Claims.EachOccurrenceRunsOnce(mode, ws, i, r, q);
    }
  }

  lemma LastRowIsState(s: StoreState, id: JobId) returns (k: nat)
    requires LegalStore(s) && id in s.jobs && !s.jobs[id].state.Scheduled?
    ensures k == |HistoryOf(s, id)| - 1 && HistoryOf(s, id)[k].to == s.jobs[id].state
  {
    assert LegalHistory(s.jobs[id], HistoryOf(s, id));
    k := |HistoryOf(s, id)| - 1;
  }

  /** From the end of a one-shot job back to the end of its command, when only supervisors start monitors:
      a job is Succeeded exactly when its command was reported to have exited with 0 and its output was
      captured; it is Interrupted only when its wait failed or reported nothing. */
  lemma SuccessMeansExitZero(mode: Mode, ws: seq<World>, i: nat, id: JobId) returns (r: RunId)
    requires Trace(mode, ws) && !mode.strays && i < |ws| && id in ws[i].store.jobs
    requires !ws[i].store.jobs[id].schedule.RecurringInterval?
    requires var state := ws[i].store.jobs[id].state; state.Succeeded? || state.Interrupted?
    ensures r in ws[i].store.runs && ws[i].store.runs[r].jobId == id && r in ws[i].reports
    ensures var report := ws[i].reports[r];
      && !report.captureFailed
      && (ws[i].store.jobs[id].state.Succeeded? <==> report.status.Ended? && report.status.code == Some(0))
      && (ws[i].store.jobs[id].state.Interrupted?
          <==> report.status == WaitFailed || report.status == Ended(None, None))
  {
    r := OneShotEndsAsItsRun(mode, ws, i, id);
    TraceKeepsOutcomes(mode, ws, i);
    TraceKeepsRuns(mode, ws, i);
    var run := ws[i].store.runs[r];
    assert run.id == r && Consistent(run) && RowFaithful(run, LedgerOf(ws[i]));
    hide Trace, RunInv, OutcomeInv;
    OutcomeMeansState(run.outcome.value);
    var asked := OutcomeMatchesReport(mode, ws, i, r);
  }
}
