/** Whole-run safety of jobs: cancellation is final and an occurrence is claimed at most once. */
module JobSafety {
  import opened Wrappers
  import opened Primitives
  import opened Transitions
  import opened Jobs
  import opened Runs
  import opened Store
  import opened History
  import opened Protocol

  /** A row some client read earlier: the stored row has moved on, or it is still that very row. */
  ghost predicate Historical(s: StoreState, job: JobSnapshot) {
    && job.id in s.jobs && s.jobs[job.id].id == job.id
    && job.revision <= s.jobs[job.id].revision
    && (job.revision == s.jobs[job.id].revision ==> job == s.jobs[job.id])
  }

  predicate HoldsJob(c: Client) {
    !c.DueLoad? && !c.MonLoadJob? && !c.CanResolve?
  }

  /** What each program counter knows about the state of the row it holds. */
  predicate JobPhase(c: Client) {
    && (c.DueWaiting? ==> c.job.state.Scheduled?)
    && (c.DueStarting? ==> c.job.state.Waiting?)
    && (c.DueClaim? || c.DueRunning? ==> c.job.state.Starting?)
    && (c.DueSpawn? || c.DueFailRead? || c.DueFailWrite? || c.DueFailJob? ==> c.job.state.Running?)
    && (c.CanNoRun? ==> c.job.state.CancelRequested?)
    && (c.MonFinishWrite? || c.CanFinishWrite? ==> !c.job.state.IsTerminal())
  }

  ghost predicate JobClientOk(s: StoreState, c: Client) {
    (HoldsJob(c) ==> Historical(s, c.job)) && JobPhase(c)
  }

  /** No row ever leaves a finished state, and only a recurring job uses the recurring edges. */
  ghost predicate Restrained(job: JobSnapshot, rows: seq<HistoryRow>) {
    forall k | 0 <= k < |rows| ::
      !rows[k].from.IsTerminal() && (OneShotLegal(rows[k].from, rows[k].to) || job.schedule.RecurringInterval?)
  }

  ghost predicate RestrainedStore(s: StoreState) {
    LegalStore(s) && forall id :: id in s.jobs ==> Restrained(s.jobs[id], HistoryOf(s, id))
  }

  ghost predicate SameJobs(s: StoreState, s': StoreState) {
    s'.jobs == s.jobs && s'.history == s.history
  }

  ghost predicate MovesJob(s: StoreState, s': StoreState, id: JobId) {
    && OneMove(s, s', id)
    && !s.jobs[id].state.IsTerminal()
    && (OneShotLegal(s.jobs[id].state, s'.jobs[id].state) || s.jobs[id].schedule.RecurringInterval?)
  }

  /** All that a step of any program can do to the jobs. */
  ghost predicate JobMove(s: StoreState, s': StoreState) {
    SameJobs(s, s') || exists id :: MovesJob(s, s', id)
  }

  /** The compare-and-swap at work: a commit from a held row starts from exactly that row, so what
      the client concluded from reading it still holds. */
  lemma TransitionMoves(s: StoreState, job: JobSnapshot, to: JobState, actor: Actor, reason: string, now: UtcTimestamp)
    requires RestrainedStore(s) && Historical(s, job) && !job.state.IsTerminal()
    ensures var (s', r) := JobTransitioned(s, job.id, job.revision, to, false, actor, reason, now);
      && JobMove(s, s') && s'.runs == s.runs
      && (r.Err? ==> s' == s)
      && (r.Ok? ==>
          MovesJob(s, s', job.id) && s.jobs[job.id] == job && s'.jobs[job.id] == r.value && r.value.state == to
                    && Historical(s', r.value))
  {
    hide RestrainedStore, LegalStore;
    var (s', r) := JobTransitioned(s, job.id, job.revision, to, false, actor, reason, now);
    if r.Ok? {
      CommitIsOneMove(s, s.jobs[job.id], s'.jobs[job.id], actor, reason);
      assert MovesJob(s, s', job.id);
    }
  }

  lemma AdvanceMoves(s: StoreState, job: JobSnapshot, now: UtcTimestamp)
    requires RestrainedStore(s) && Historical(s, job) && !job.state.IsTerminal()
    ensures var (s', r) := RecurringAdvanced(s, job.id, job.revision, now);
      JobMove(s, s') && s'.runs == s.runs
  {
    hide RestrainedStore, LegalStore;
    var (s', r) := RecurringAdvanced(s, job.id, job.revision, now);
    if r.Ok? {
      CommitIsOneMove(s, s.jobs[job.id], s'.jobs[job.id], Monitor, ADVANCE_REASON);
      assert MovesJob(s, s', job.id);
    }
  }

  lemma RowKeepsRestrained(before: JobSnapshot, after: JobSnapshot, rows: seq<HistoryRow>, rows': seq<HistoryRow>)
    requires Restrained(before, rows) && AddsRow(before, after, rows, rows') && after.schedule == before.schedule
    requires !before.state.IsTerminal()
    requires OneShotLegal(before.state, after.state) || before.schedule.RecurringInterval?
    ensures Restrained(after, rows')
  {
    assert forall k | 0 <= k < |rows| :: rows'[k] == rows'[..|rows|][k];
  }

  lemma CommitKeepsRestrained(s: StoreState, s': StoreState, id: JobId)
    requires RestrainedStore(s) && MovesJob(s, s', id)
    ensures RestrainedStore(s')
  {
    MoveKeepsLegal(s, s', id);
    hide LegalStore, Restrained, AddsRow;
    forall other | other in s'.jobs ensures Restrained(s'.jobs[other], HistoryOf(s', other)) {
      if other == id {
        RowKeepsRestrained(s.jobs[id], s'.jobs[id], HistoryOf(s, id), s'.history[id]);
      } else {
        assert HistoryOf(s', other) == HistoryOf(s, other);
      }
    }
  }

  lemma SameJobsKeepLegal(s: StoreState, s': StoreState)
    requires LegalStore(s) && SameJobs(s, s')
    ensures LegalStore(s')
  {
    forall id ensures HistoryOf(s', id) == HistoryOf(s, id) {}
  }

  lemma MoveKeepsRestrained(s: StoreState, s': StoreState)
    requires RestrainedStore(s) && JobMove(s, s')
    ensures RestrainedStore(s')
  {
    if SameJobs(s, s') {
      SameJobsKeepLegal(s, s');
      forall id ensures HistoryOf(s', id) == HistoryOf(s, id) {}
    } else {
      var id :| MovesJob(s, s', id);
      CommitKeepsRestrained(s, s', id);
    }
  }

  /** History only grows, and a stored row only changes together with its revision. */
  ghost predicate Later(s: StoreState, s': StoreState) {
    && (forall id :: id in s.jobs ==> id in s'.jobs && s.jobs[id].revision <= s'.jobs[id].revision)
    && (forall id :: id in s.jobs ==> s.jobs[id].id == s'.jobs[id].id && s.jobs[id].schedule == s'.jobs[id].schedule)
    && (forall id :: id in s.jobs && s.jobs[id].revision == s'.jobs[id].revision ==> s.jobs[id] == s'.jobs[id])
    && (forall id :: HistoryOf(s, id) <= HistoryOf(s', id))
  }

  lemma MoveIsLater(s: StoreState, s': StoreState)
    requires RestrainedStore(s) && JobMove(s, s')
    ensures Later(s, s')
  {
    hide RestrainedStore;
    if !SameJobs(s, s') {
      var id :| MovesJob(s, s', id);
      forall other ensures HistoryOf(s, other) <= HistoryOf(s', other) {
        assert other != id ==> HistoryOf(s', other) == HistoryOf(s, other);
      }
    }
  }

  lemma LaterKeepsClient(s: StoreState, s': StoreState, c: Client)
    requires JobClientOk(s, c) && Later(s, s')
    ensures JobClientOk(s', c)
  {}

  // ----- each program's step

  lemma LoadedIsHistorical(s: StoreState, id: JobId)
    requires RestrainedStore(s)
    ensures LoadJob(s, id).Ok? ==> Historical(s, LoadJob(s, id).value) && LoadJob(s, id).value.id == id
  {}

  lemma StayingIsAMove(s: StoreState, s': StoreState, c: Client)
    ensures s'.jobs == s.jobs && s'.history == s.history ==> JobMove(s, s')
    ensures s'.jobs == s.jobs && HoldsJob(c) && Historical(s, c.job) ==> Historical(s', c.job)
  {}

  lemma ClaimKeepsJobs(s: StoreState, job: JobId, due: UtcTimestamp, createdAt: UtcTimestamp, id: RunId,
                       token: ClaimToken)
    ensures var s' := RunClaimed(s, job, due, createdAt, id, token).0; s'.jobs == s.jobs && s'.history == s.history
  {}

  lemma TerminalWriteKeepsJobs(s: StoreState, seen: Run, finishedAt: UtcTimestamp, outcome: RunOutcome)
    ensures var r := TerminalWrite(s, seen, finishedAt, outcome);
      r.Some? ==> r.value.jobs == s.jobs && r.value.history == s.history
  {}

  lemma DueWritesMove(s: StoreState, c: Client, ch: Choice)
    requires RestrainedStore(s) && JobClientOk(s, c)
    requires (c.DueWaiting? || c.DueStarting? || c.DueRunning? || c.DueFailJob?)
    ensures JobMove(s, DueStep(s, c, ch).store)
    ensures DueStep(s, c, ch).next.Some? ==> JobClientOk(DueStep(s, c, ch).store, DueStep(s, c, ch).next.value)
  {
    hide Historical, RestrainedStore, JobMove, MovesJob, SameJobs;
    hide JobTransitioned, RecurringAdvanced, RunClaimed, LoadJob;
    hide Reason.Text, PlanTerminal, TerminalWrite, PlanRequest, LoadRun;
    hide LoadClaimed, Started, FinishJob, LatestActiveRun;
    StayingIsAMove(s, s, c);
    match c
    case DueWaiting(job, now) => TransitionMoves(s, job, Waiting, Supervisor, LoadedDeadline.Text(), now);
    case DueStarting(job, now) => TransitionMoves(s, job, Starting, Supervisor, DeadlineDue.Text(), now);
    case DueRunning(job, run, now) => TransitionMoves(s, job, Running, Supervisor, MonitorClaimed.Text(), now);
    case DueFailJob(job, finishedAt) =>
      TransitionMoves(s, job, JobState.Failed, Supervisor, MonitorLost.Text(), finishedAt);
  }

  lemma DueReadsMove(s: StoreState, c: Client, ch: Choice)
    requires RestrainedStore(s) && JobClientOk(s, c) && IsSupervisor(c)
    requires !(c.DueWaiting? || c.DueStarting? || c.DueRunning? || c.DueFailJob?)
    ensures JobMove(s, DueStep(s, c, ch).store)
    ensures DueStep(s, c, ch).next.Some? ==> JobClientOk(DueStep(s, c, ch).store, DueStep(s, c, ch).next.value)
  {
    hide Historical, RestrainedStore, JobMove, MovesJob, SameJobs;
    hide JobTransitioned, RecurringAdvanced, RunClaimed, LoadJob;
    hide Reason.Text, PlanTerminal, TerminalWrite, PlanRequest, LoadRun;
    hide LoadClaimed, Started, FinishJob, LatestActiveRun;
    StayingIsAMove(s, DueStep(s, c, ch).store, c);
    match c
    case DueLoad(id) => LoadedIsHistorical(s, id);
    case DueClaim(job, now) => ClaimKeepsJobs(s, job.id, job.nextDue, now, ch.runId, ch.token);
    case DueFailWrite(job, seen, finishedAt) => TerminalWriteKeepsJobs(s, seen, finishedAt, SPAWN_FAILED);
    case _ =>
  }

  lemma DueMoves(s: StoreState, c: Client, ch: Choice)
    requires RestrainedStore(s) && JobClientOk(s, c) && IsSupervisor(c)
    ensures JobMove(s, DueStep(s, c, ch).store)
    ensures DueStep(s, c, ch).next.Some? ==> JobClientOk(DueStep(s, c, ch).store, DueStep(s, c, ch).next.value)
  {
    hide RestrainedStore, JobClientOk, JobMove, DueStep;
    if c.DueWaiting? || c.DueStarting? || c.DueRunning? || c.DueFailJob? {
      DueWritesMove(s, c, ch);
    } else {
      DueReadsMove(s, c, ch);
    }
  }

  lemma FinishJobMoves(s: StoreState, job: JobSnapshot, runState: RunState, now: UtcTimestamp)
    requires RestrainedStore(s) && Historical(s, job) && !job.state.IsTerminal()
    ensures JobMove(s, FinishJob(s, job, runState, now)) && FinishJob(s, job, runState, now).runs == s.runs
  {
    TransitionMoves(s, job, JobState.Cancelled, Monitor, CancelledRunFinished.Text(), now);
    AdvanceMoves(s, job, now);
    TransitionMoves(s, job, Succeeded, Monitor, CommandSucceeded.Text(), now);
    TransitionMoves(s, job, JobState.Failed, Monitor, CommandFailed.Text(), now);
    TransitionMoves(s, job, JobState.Interrupted, Monitor, OutcomeUnknown.Text(), now);
  }

  lemma MonWritesMove(s: StoreState, c: Client, ch: Choice)
    requires RestrainedStore(s) && JobClientOk(s, c) && (c.MonFinishWrite?)
    ensures JobMove(s, MonStep(s, c, ch).store)
    ensures MonStep(s, c, ch).next.Some? ==> JobClientOk(MonStep(s, c, ch).store, MonStep(s, c, ch).next.value)
  {
    hide Historical, RestrainedStore, JobMove, MovesJob, SameJobs;
    hide JobTransitioned, RecurringAdvanced, RunClaimed, LoadJob;
    hide Reason.Text, PlanTerminal, TerminalWrite, PlanRequest, LoadRun;
    hide LoadClaimed, Started, FinishJob, LatestActiveRun;
    FinishJobMoves(s, c.job, c.runState, ch.now);
  }

  lemma MarkKeepsJobs(s: StoreState, run: Run, facts: StartFacts)
    ensures Started(run, facts).Ok? && WriteRunning(s, Started(run, facts).value).Some? ==>
      var after := WriteRunning(s, Started(run, facts).value).value;
      after.jobs == s.jobs && after.history == s.history
  {}

  lemma MonLoadsMove(s: StoreState, c: Client, ch: Choice)
    requires RestrainedStore(s) && JobClientOk(s, c) && (c.MonLoadJob? || c.MonLoadRun? || c.MonFinishLoad?)
    ensures JobMove(s, MonStep(s, c, ch).store)
    ensures MonStep(s, c, ch).next.Some? ==> JobClientOk(MonStep(s, c, ch).store, MonStep(s, c, ch).next.value)
  {
    hide Historical, RestrainedStore, JobMove, LoadJob, LoadRun;
    StayingIsAMove(s, s, c);
    if c.MonLoadJob? { LoadedIsHistorical(s, c.id); }
    if c.MonFinishLoad? { LoadedIsHistorical(s, c.job.id); }
  }

  lemma MonRunsMove(s: StoreState, c: Client, ch: Choice)
    requires RestrainedStore(s) && JobClientOk(s, c) && (c.MonMarkWrite? || c.MonRecordWrite?)
    ensures JobMove(s, MonStep(s, c, ch).store)
    ensures MonStep(s, c, ch).next.Some? ==> JobClientOk(MonStep(s, c, ch).store, MonStep(s, c, ch).next.value)
  {
    hide Historical, RestrainedStore, JobMove, TerminalWrite, Started, WriteRunning;
    StayingIsAMove(s, MonStep(s, c, ch).store, c);
    if c.MonMarkWrite? {
      MarkKeepsJobs(s, c.run, c.facts);
    } else {
      TerminalWriteKeepsJobs(s, c.run, c.finishedAt, c.outcome);
    }
  }

  lemma MonReadsMove(s: StoreState, c: Client, ch: Choice)
    requires RestrainedStore(s) && JobClientOk(s, c)
    requires c.MonCheck? || c.MonPrepare? || c.MonMarkRead? || c.MonWait? || c.MonObserve? || c.MonRecordRead?
    ensures JobMove(s, MonStep(s, c, ch).store)
    ensures MonStep(s, c, ch).next.Some? ==> JobClientOk(MonStep(s, c, ch).store, MonStep(s, c, ch).next.value)
  {
    hide Historical, RestrainedStore, JobMove, PlanTerminal, LoadRun, LoadClaimed, Started, CompletionOutcome;
    StayingIsAMove(s, s, c);
  }

  lemma MonMoves(s: StoreState, c: Client, ch: Choice)
    requires RestrainedStore(s) && JobClientOk(s, c) && IsMonitor(c)
    ensures JobMove(s, MonStep(s, c, ch).store)
    ensures MonStep(s, c, ch).next.Some? ==> JobClientOk(MonStep(s, c, ch).store, MonStep(s, c, ch).next.value)
  {
    hide RestrainedStore, JobClientOk, JobMove, MonStep;
    if c.MonFinishWrite? {
      MonWritesMove(s, c, ch);
    } else if c.MonLoadJob? || c.MonLoadRun? || c.MonFinishLoad? {
      MonLoadsMove(s, c, ch);
    } else if c.MonMarkWrite? || c.MonRecordWrite? {
      MonRunsMove(s, c, ch);
    } else {
      MonReadsMove(s, c, ch);
    }
  }

  lemma CanWritesMove(s: StoreState, c: Client, ch: Choice)
    requires RestrainedStore(s) && JobClientOk(s, c) && (c.CanRequest? || c.CanNoRun? || c.CanFinishWrite?)
    ensures JobMove(s, CanStep(s, c, ch).store)
    ensures CanStep(s, c, ch).next.Some? ==> JobClientOk(CanStep(s, c, ch).store, CanStep(s, c, ch).next.value)
  {
    hide Historical, RestrainedStore, JobMove, MovesJob, SameJobs;
    hide JobTransitioned, RecurringAdvanced, RunClaimed, LoadJob;
    hide Reason.Text, PlanTerminal, TerminalWrite, PlanRequest, LoadRun;
    hide LoadClaimed, Started, FinishJob, LatestActiveRun;
    StayingIsAMove(s, s, c);
    match c
    case CanRequest(job, active, left) =>
      if !job.state.IsTerminal() { TransitionMoves(s, job, CancelRequested, Cli, CancelAsked.Text(), ch.now); }
    case CanNoRun(job, now) => TransitionMoves(s, job, JobState.Cancelled, Cli, CancelledEarly.Text(), now);
    case CanFinishWrite(job, target) => TransitionMoves(s, job, target, Cli, CancellationFinished.Text(), ch.now);
  }

  lemma CanLoadsMove(s: StoreState, c: Client, ch: Choice)
    requires RestrainedStore(s) && JobClientOk(s, c) && (c.CanResolve? || c.CanReload? || c.CanFinishLoad?)
    ensures JobMove(s, CanStep(s, c, ch).store)
    ensures CanStep(s, c, ch).next.Some? ==> JobClientOk(CanStep(s, c, ch).store, CanStep(s, c, ch).next.value)
  {
    hide Historical, RestrainedStore, JobMove, LoadJob;
    StayingIsAMove(s, s, c);
    LoadedIsHistorical(s, if c.CanResolve? then c.id else c.job.id);
  }

  lemma CanAsksMove(s: StoreState, c: Client, ch: Choice)
    requires RestrainedStore(s) && JobClientOk(s, c)
    requires c.CanActive? || c.CanRunLoad? || c.CanCommitRead? || c.CanPoll?
    ensures JobMove(s, CanStep(s, c, ch).store)
    ensures CanStep(s, c, ch).next.Some? ==> JobClientOk(CanStep(s, c, ch).store, CanStep(s, c, ch).next.value)
  {
    hide Historical, RestrainedStore, JobMove, PlanRequest, LoadRun, LoadClaimed, LatestActiveRun;
    StayingIsAMove(s, s, c);
  }

  lemma CanRecordsMove(s: StoreState, c: Client, ch: Choice)
    requires RestrainedStore(s) && JobClientOk(s, c) && (c.CanCommitWrite? || c.CanRecordRead? || c.CanRecordWrite?)
    ensures JobMove(s, CanStep(s, c, ch).store)
    ensures CanStep(s, c, ch).next.Some? ==> JobClientOk(CanStep(s, c, ch).store, CanStep(s, c, ch).next.value)
  {
    hide Historical, RestrainedStore, JobMove, PlanTerminal, TerminalWrite;
    StayingIsAMove(s, CanStep(s, c, ch).store, c);
    if c.CanRecordWrite? { TerminalWriteKeepsJobs(s, c.run, c.finishedAt, CANCELLED_EARLY); }
  }

  lemma CanSignalsMove(s: StoreState, c: Client, ch: Choice)
    requires RestrainedStore(s) && JobClientOk(s, c) && IsSignalling(c)
    ensures JobMove(s, CanStep(s, c, ch).store)
    ensures CanStep(s, c, ch).next.Some? ==> JobClientOk(CanStep(s, c, ch).store, CanStep(s, c, ch).next.value)
  {
    hide Historical, RestrainedStore, JobMove;
    StayingIsAMove(s, s, c);
  }

  lemma CanMoves(s: StoreState, c: Client, ch: Choice)
    requires RestrainedStore(s) && JobClientOk(s, c) && !IsSupervisor(c) && !IsMonitor(c)
    ensures JobMove(s, CanStep(s, c, ch).store)
    ensures CanStep(s, c, ch).next.Some? ==> JobClientOk(CanStep(s, c, ch).store, CanStep(s, c, ch).next.value)
  {
    hide RestrainedStore, JobClientOk, JobMove, CanStep;
    if c.CanRequest? || c.CanNoRun? || c.CanFinishWrite? {
      CanWritesMove(s, c, ch);
    } else if c.CanResolve? || c.CanReload? || c.CanFinishLoad? {
      CanLoadsMove(s, c, ch);
    } else if c.CanCommitWrite? || c.CanRecordRead? || c.CanRecordWrite? {
      CanRecordsMove(s, c, ch);
    } else if IsSignalling(c) {
      CanSignalsMove(s, c, ch);
    } else {
      CanAsksMove(s, c, ch);
    }
  }

  /** Whatever a client does, it moves at most one job, along one edge out of an unfinished state. */
  lemma StepMoves(s: StoreState, c: Client, ch: Choice)
    requires RestrainedStore(s) && JobClientOk(s, c)
    ensures var effect := Act(s, c, ch);
      && JobMove(s, effect.store)
      && (effect.next.Some? ==> JobClientOk(effect.store, effect.next.value))
  {
    hide RestrainedStore, JobMove, MonStep, DueStep, CanStep, JobClientOk;
    if IsSupervisor(c) { DueMoves(s, c, ch); }
    else if IsMonitor(c) { MonMoves(s, c, ch); }
    else { CanMoves(s, c, ch); }
  }

  ghost predicate ClaimsBy(c: Client, ch: Choice, effect: Effect) {
    && (effect.claim.Some? ==> c.DueClaim? && effect.claim.value == Claim(ch.runId, c.job.id, c.job.revision))
    && (effect.next.Some? && effect.next.value.DueClaim? ==> c.DueStarting?)
    && (effect.spawned.Some? ==> effect.spawned.value.MonLoadJob? && c.DueSpawn? && effect.next.None?)
  }

  lemma SupervisorClaims(s: StoreState, c: Client, ch: Choice)
    requires IsSupervisor(c)
    ensures ClaimsBy(c, ch, DueStep(s, c, ch))
  {
    hide LoadJob, JobTransitioned, RunClaimed, PlanTerminal, TerminalWrite, Reason.Text;
  }

  lemma MonitorNeverClaims(s: StoreState, c: Client, ch: Choice)
    requires IsMonitor(c)
    ensures ClaimsBy(c, ch, MonStep(s, c, ch))
  {
    hide LoadJob, LoadRun, LoadClaimed, Started, WriteRunning;
    hide PlanTerminal, TerminalWrite, FinishJob, CompletionOutcome;
  }

  lemma CancellerNeverClaims(s: StoreState, c: Client, ch: Choice)
    requires !IsSupervisor(c) && !IsMonitor(c)
    ensures ClaimsBy(c, ch, CanStep(s, c, ch))
  {
    hide LoadJob, LoadRun, LoadClaimed, JobTransitioned, PlanRequest, WriteRequested, PlanTerminal, TerminalWrite;
    hide LatestActiveRun, Reason.Text;
  }

  /** The only ways to claim, to become entitled to claim, and to start a monitor. */
  lemma StepClaims(s: StoreState, c: Client, ch: Choice)
    ensures ClaimsBy(c, ch, Act(s, c, ch))
  {
    ActOf(s, c, ch);
    hide Act, DueStep, MonStep, CanStep, ClaimsBy;
    if IsSupervisor(c) {
      SupervisorClaims(s, c, ch);
    } else if IsMonitor(c) {
      MonitorNeverClaims(s, c, ch);
    } else {
      CancellerNeverClaims(s, c, ch);
    }
  }

  // ----- claims

  ghost predicate StartedRow(s: StoreState, id: JobId, revision: int) {
    && 2 <= revision <= |HistoryOf(s, id)| + 1
    && HistoryOf(s, id)[revision - 2].to.Starting?
  }

  predicate Claiming(c: Client, id: JobId, revision: int) {
    c.DueClaim? && c.job.id == id && c.job.revision == revision
  }

  /** Each commit into `Starting` is a right to claim once, held by one supervisor or already used. */
  ghost predicate ClaimsOk(w: World) {
    && (forall i | 0 <= i < |w.claims| :: StartedRow(w.store, w.claims[i].job, w.claims[i].revision))
    && (forall i, j | 0 <= i < j < |w.claims| ::
          w.claims[i].job == w.claims[j].job ==> w.claims[i].revision != w.claims[j].revision)
    && (forall c | c in w.clients && w.clients[c].DueClaim? ::
          StartedRow(w.store, w.clients[c].job.id, w.clients[c].job.revision))
    && (forall c, i | c in w.clients && 0 <= i < |w.claims| ::
          !Claiming(w.clients[c], w.claims[i].job, w.claims[i].revision))
    && (forall c, d | c in w.clients && d in w.clients && c != d && w.clients[c].DueClaim? ::
          !Claiming(w.clients[d], w.clients[c].job.id, w.clients[c].job.revision))
  }

  ghost predicate JobInv(w: World) {
    && RestrainedStore(w.store)
    && (forall c :: c in w.clients ==> JobClientOk(w.store, w.clients[c]))
    && ClaimsOk(w)
  }

  lemma LaterKeepsRow(s: StoreState, s': StoreState, id: JobId, revision: int)
    requires StartedRow(s, id, revision) && Later(s, s')
    ensures StartedRow(s', id, revision)
  {}

  /** Entering `DueClaim` needs a fresh commit, whose revision nobody else can hold. */
  lemma FreshRight(s: StoreState, c: Client, ch: Choice)
    requires RestrainedStore(s) && JobClientOk(s, c)
    requires Act(s, c, ch).next.Some? && Act(s, c, ch).next.value.DueClaim?
    ensures var next, s' := Act(s, c, ch).next.value, Act(s, c, ch).store;
      && next.job.id in s.jobs && s.jobs[next.job.id].revision < next.job.revision
      && |HistoryOf(s, next.job.id)| + 2 == next.job.revision
      && StartedRow(s', next.job.id, next.job.revision)
      && Act(s, c, ch).claim.None?
  {
    StepClaims(s, c, ch);
    var job := c.job;
    TransitionMoves(s, job, Starting, Supervisor, DeadlineDue.Text(), c.now);
    assert LegalHistory(s.jobs[job.id], HistoryOf(s, job.id));
  }

  /** Every claim and every right to claim still rests on its row after the step. */
  lemma StartedRowsStay(w: World, e: Event)
    requires JobInv(w) && e.Step? && e.client in w.clients && e.child !in w.clients
    ensures var w' := Apply(w, e);
      && (forall i | 0 <= i < |w'.claims| :: StartedRow(w'.store, w'.claims[i].job, w'.claims[i].revision))
      && (forall d | d in w'.clients && w'.clients[d].DueClaim? ::
          StartedRow(w'.store, w'.clients[d].job.id, w'.clients[d].job.revision))
  {
    hide Act, RestrainedStore, JobMove, JobPhase, LegalStore, Later, StartedRow, JobClientOk;
    var c, w' := w.clients[e.client], Apply(w, e);
    var effect := Act(w.store, c, e.choice);
    StepMoves(w.store, c, e.choice);
    StepClaims(w.store, c, e.choice);
    MoveIsLater(w.store, effect.store);
    if effect.next.Some? && effect.next.value.DueClaim? { FreshRight(w.store, c, e.choice); }
    forall i | 0 <= i < |w'.claims| ensures StartedRow(w'.store, w'.claims[i].job, w'.claims[i].revision) {
      if i < |w.claims| {
        LaterKeepsRow(w.store, effect.store, w.claims[i].job, w.claims[i].revision);
      } else {
        LaterKeepsRow(w.store, effect.store, c.job.id, c.job.revision);
      }
    }
    forall d | d in w'.clients && w'.clients[d].DueClaim?
      ensures StartedRow(w'.store, w'.clients[d].job.id, w'.clients[d].job.revision)
    {
      if d != e.client { LaterKeepsRow(w.store, effect.store, w.clients[d].job.id, w.clients[d].job.revision); }
    }
  }

  lemma StepKeepsClaims(w: World, e: Event)
    requires JobInv(w) && e.Step? && e.client in w.clients && e.child !in w.clients
    ensures ClaimsOk(Apply(w, e))
  {
    hide Act, RestrainedStore, JobMove, JobPhase, LegalStore, Later;
    var c, w' := w.clients[e.client], Apply(w, e);
    var effect := Act(w.store, c, e.choice);
    StepMoves(w.store, c, e.choice);
    StepClaims(w.store, c, e.choice);
    MoveIsLater(w.store, effect.store);
    if effect.next.Some? && effect.next.value.DueClaim? {
      FreshRight(w.store, c, e.choice);
      var right := effect.next.value.job;
      forall d | d in w.clients && w.clients[d].DueClaim? ensures !Claiming(w.clients[d], right.id, right.revision) {
        assert JobClientOk(w.store, w.clients[d]);
      }
      forall i | 0 <= i < |w.claims| ensures w.claims[i].job == right.id ==> w.claims[i].revision != right.revision {
        assert StartedRow(w.store, w.claims[i].job, w.claims[i].revision);
      }
    }
    StartedRowsStay(w, e);
  }

  lemma NextKeepsJobs(mode: Mode, w: World, e: Event)
    requires JobInv(w) && Enabled(mode, w, e)
    ensures JobInv(Apply(w, e)) && Later(w.store, Apply(w, e).store)
  {
    hide Act, RestrainedStore, JobMove, JobClientOk, ClaimsOk, Later;
    var w' := Apply(w, e);
    match e
    case Submit(job) => SubmitKeepsJobs(w, job);
    case Arrive(client, program) => ArrivalKeepsJobs(w, client, program);
    case Stop(client) => StopKeepsJobs(w, client);
    case Step(client, choice, child) =>
      StepMoves(w.store, w.clients[client], choice);
      StepClaims(w.store, w.clients[client], choice);
      MoveKeepsRestrained(w.store, w'.store);
      MoveIsLater(w.store, w'.store);
      StepKeepsClaims(w, e);
      forall c | c in w'.clients ensures JobClientOk(w'.store, w'.clients[c]) {
        if c == child {
          HoldingNothing(w'.store, w'.clients[c]);
        } else if c != client {
          LaterKeepsClient(w.store, w'.store, w.clients[c]);
        }
      }
  }

  lemma HoldingNothing(s: StoreState, c: Client)
    requires !HoldsJob(c)
    ensures JobClientOk(s, c)
  {}

  lemma CreatedIsLater(s: StoreState, job: JobSnapshot)
    requires job.id !in s.jobs
    ensures var s' := JobCreated(s, job).0;
      && Later(s, s') && (forall id :: HistoryOf(s', id) == HistoryOf(s, id))
      && (s' == s || s'.jobs == s.jobs[job.id := job])
  {}

  lemma SubmitIsLater(w: World, job: JobSnapshot)
    requires RestrainedStore(w.store) && IsNewborn(job) && job.id !in w.store.jobs
    ensures var s' := Apply(w, Submit(job)).store; RestrainedStore(s') && Later(w.store, s')
  {
    PerformKeepsLegal(w.store, Create(job));
    CreatedIsLater(w.store, job);
    NoHistoryYet(w.store, job.id);
    hide LegalStore, Later, JobCreated, HistoryOf;
  }

  lemma NoHistoryYet(s: StoreState, id: JobId)
    requires LegalStore(s) && id !in s.jobs
    ensures HistoryOf(s, id) == []
  {}

  lemma SubmitKeepsJobs(w: World, job: JobSnapshot)
    requires JobInv(w) && IsNewborn(job) && job.id !in w.store.jobs
    ensures JobInv(Apply(w, Submit(job))) && Later(w.store, Apply(w, Submit(job)).store)
  {
    hide RestrainedStore, Later, JobClientOk, StartedRow, JobCreated;
    var w' := Apply(w, Submit(job));
    SubmitIsLater(w, job);
    forall c | c in w'.clients ensures JobClientOk(w'.store, w'.clients[c]) {
      LaterKeepsClient(w.store, w'.store, w.clients[c]);
    }
    forall i | 0 <= i < |w.claims| ensures StartedRow(w'.store, w.claims[i].job, w.claims[i].revision) {
      LaterKeepsRow(w.store, w'.store, w.claims[i].job, w.claims[i].revision);
    }
    forall c | c in w.clients && w.clients[c].DueClaim?
      ensures StartedRow(w'.store, w.clients[c].job.id, w.clients[c].job.revision)
    {
      LaterKeepsRow(w.store, w'.store, w.clients[c].job.id, w.clients[c].job.revision);
    }
  }

  lemma ArrivalKeepsJobs(w: World, client: ClientId, program: Client)
    requires JobInv(w) && client !in w.clients && !HoldsJob(program)
    ensures JobInv(Apply(w, Arrive(client, program))) && Later(w.store, w.store)
  {
    hide RestrainedStore, StartedRow;
  }

  lemma StopKeepsJobs(w: World, client: ClientId)
    requires JobInv(w) && client in w.clients
    ensures JobInv(Apply(w, Stop(client))) && Later(w.store, w.store)
  {
    hide RestrainedStore, StartedRow, JobClientOk;
  }

  lemma NextJobs(mode: Mode, before: World, after: World)
    requires JobInv(before) && Next(mode, before, after)
    ensures JobInv(after) && Later(before.store, after.store)
  {
    hide JobInv, Later;
    var e := EventBetween(mode, before, after);
    NextKeepsJobs(mode, before, e);
  }

  lemma InitialJobs(w: World)
    requires Initial(w)
    ensures JobInv(w)
  {}

  lemma {:induction false} TraceKeepsJobs(mode: Mode, ws: seq<World>, i: nat)
    requires Trace(mode, ws) && i < |ws|
    ensures JobInv(ws[i])
  {
    hide JobInv, Next, Initial, Later;
    if i == 0 {
      InitialJobs(ws[0]);
    } else {
      TraceKeepsJobs(mode, ws, i - 1);
      NextJobs(mode, ws[i - 1], ws[i]);
    }
  }

  lemma LaterTransitive(a: StoreState, b: StoreState, c: StoreState)
    requires Later(a, b) && Later(b, c)
    ensures Later(a, c)
  {}

  lemma {:induction false} TraceGrows(mode: Mode, ws: seq<World>, i: nat, j: nat)
    requires Trace(mode, ws) && i <= j < |ws|
    ensures Later(ws[i].store, ws[j].store)
    decreases j
  {
    if i < j {
      hide JobInv, Next, Initial, Later;
      TraceGrows(mode, ws, i, j - 1);
      TraceKeepsJobs(mode, ws, j - 1);
      NextJobs(mode, ws[j - 1], ws[j]);
      LaterTransitive(ws[i].store, ws[j - 1].store, ws[j].store);
    }
  }

  // ----- the results

  lemma RowAt(job: JobSnapshot, rows: seq<HistoryRow>, k: int)
    requires LegalHistory(job, rows)
    ensures 0 <= k < |rows| ==> RowFollows(job.createdAt, rows, k)
  {}

  lemma RowAfterCancelRequest(job: JobSnapshot, rows: seq<HistoryRow>, k: nat)
    requires LegalHistory(job, rows) && Restrained(job, rows)
    requires k < |rows| && rows[k].to.CancelRequested?
    ensures |rows| <= k + 2
    ensures job.state.CancelRequested? || job.state.Cancelled? || job.state.Succeeded? || job.state.Failed?
      || job.state.Interrupted?
  {
    RowAt(job, rows, k + 1);
    RowAt(job, rows, k + 2);
  }

  /** Cancellation is final. In every run, with any number of supervisors, monitors (even ones
      started by hand), cancellers, crashes, stale rows and clock jumps: once a job's
      CancelRequested row is stored, at most one more row is ever added and the job is never again
      Scheduled, Waiting, Starting or Running. Recurring jobs included. */
  lemma CancellationIsFinal(mode: Mode, ws: seq<World>, i: nat, j: nat, id: JobId, k: nat)
    requires Trace(mode, ws) && i <= j < |ws|
    requires k < |HistoryOf(ws[i].store, id)| && HistoryOf(ws[i].store, id)[k].to.CancelRequested?
    ensures id in ws[j].store.jobs
    ensures var state := ws[j].store.jobs[id].state;
      state.CancelRequested? || state.Cancelled? || state.Succeeded? || state.Failed? || state.Interrupted?
    ensures |HistoryOf(ws[j].store, id)| <= k + 2
  {
    TraceKeepsJobs(mode, ws, i);
    TraceKeepsJobs(mode, ws, j);
    TraceGrows(mode, ws, i, j);
    assert HistoryOf(ws[i].store, id) <= HistoryOf(ws[j].store, id);
    RowAfterCancelRequest(ws[j].store.jobs[id], HistoryOf(ws[j].store, id), k);
  }

  /** A finished job is never touched again: its whole row stays as it is. */
  lemma FinishedJobsAreFrozen(mode: Mode, ws: seq<World>, i: nat, j: nat, id: JobId)
    requires Trace(mode, ws) && i <= j < |ws|
    requires id in ws[i].store.jobs && ws[i].store.jobs[id].state.IsTerminal()
    ensures id in ws[j].store.jobs && ws[j].store.jobs[id] == ws[i].store.jobs[id]
    ensures HistoryOf(ws[j].store, id) == HistoryOf(ws[i].store, id)
  {
    TraceKeepsJobs(mode, ws, i);
    TraceKeepsJobs(mode, ws, j);
    TraceGrows(mode, ws, i, j);
    var early, late := HistoryOf(ws[i].store, id), HistoryOf(ws[j].store, id);
    assert early <= late && LegalHistory(ws[i].store.jobs[id], early) && LegalHistory(ws[j].store.jobs[id], late);
    RowAt(ws[j].store.jobs[id], late, |early|);
    assert |early| > 0 ==> late[|early| - 1] == early[|early| - 1];
  }

  lemma {:induction false} RanksClimb(job: JobSnapshot, rows: seq<HistoryRow>, k: nat)
    requires LegalHistory(job, rows) && Restrained(job, rows) && !job.schedule.RecurringInterval?
    requires k <= |rows|
    ensures k <= Rank(StateAfter(rows, k))
    ensures forall m | 0 <= m < k :: Rank(rows[m].to) <= Rank(StateAfter(rows, k))
    ensures forall m | 0 <= m < k :: Rank(rows[m].from) < Rank(StateAfter(rows, k))
  {
    if k > 0 {
      RanksClimb(job, rows, k - 1);
      assert RowFollows(job.createdAt, rows, k - 1);
      OneShotEdgesClimb(rows[k - 1].from, rows[k - 1].to);
    }
  }

  /** A one-shot job makes at most five transitions in its life, at most one of them into
      Starting, and is claimed at most once, whatever wakes, duplicates and races there are. */
  lemma OneShotClaimedAtMostOnce(mode: Mode, ws: seq<World>, i: nat, id: JobId)
    requires Trace(mode, ws) && i < |ws|
    requires id in ws[i].store.jobs && !ws[i].store.jobs[id].schedule.RecurringInterval?
    ensures |HistoryOf(ws[i].store, id)| <= 5
    ensures forall a, b | 0 <= a < |HistoryOf(ws[i].store, id)| && 0 <= b < |HistoryOf(ws[i].store, id)| ::
      HistoryOf(ws[i].store, id)[a].to.Starting? && HistoryOf(ws[i].store, id)[b].to.Starting? ==> a == b
    ensures forall a, b | 0 <= a < |ws[i].claims| && 0 <= b < |ws[i].claims| ::
      ws[i].claims[a].job == id && ws[i].claims[b].job == id ==> a == b
  {
    TraceKeepsJobs(mode, ws, i);
    var job, rows := ws[i].store.jobs[id], HistoryOf(ws[i].store, id);
    assert LegalHistory(job, rows);
    RanksClimb(job, rows, |rows|);
    forall a, b | 0 <= a < b < |rows| ensures !(rows[a].to.Starting? && rows[b].to.Starting?) {
      RanksClimb(job, rows, b);
      assert RowFollows(job.createdAt, rows, b);
      OneShotEdgesClimb(rows[b].from, rows[b].to);
    }
    forall a, b | 0 <= a < b < |ws[i].claims| && ws[i].claims[a].job == id ensures ws[i].claims[b].job != id {
      assert StartedRow(ws[i].store, ws[i].claims[a].job, ws[i].claims[a].revision);
      assert StartedRow(ws[i].store, ws[i].claims[b].job, ws[i].claims[b].revision);
    }
  }

  /** Two claims of the same job never share a start, and between the later claim's start and the
      earlier one's the job was advanced back to Waiting by a recurring edge. */
  lemma ClaimsAreSeparatedByAdvance(mode: Mode, ws: seq<World>, i: nat, a: nat, b: nat)
    requires Trace(mode, ws) && i < |ws|
    requires a < |ws[i].claims| && b < |ws[i].claims| && a != b
    requires ws[i].claims[a].job == ws[i].claims[b].job && ws[i].claims[a].revision <= ws[i].claims[b].revision
    ensures var rows := HistoryOf(ws[i].store, ws[i].claims[a].job);
      exists k :: ws[i].claims[a].revision - 2 < k < ws[i].claims[b].revision - 2 && k < |rows|
                  && RecurringLegal(rows[k].from, rows[k].to) && !OneShotLegal(rows[k].from, rows[k].to)
  {
    TraceKeepsJobs(mode, ws, i);
    var first, second := ws[i].claims[a].revision - 2, ws[i].claims[b].revision - 2;
    var id := ws[i].claims[a].job;
    var rows := HistoryOf(ws[i].store, id);
    assert StartedRow(ws[i].store, id, first + 2) && StartedRow(ws[i].store, id, second + 2);
    assert id in ws[i].store.history;
    StartsAreSeparated(ws[i].store.jobs[id], rows, first, second);
  }

  lemma StartsAreSeparated(job: JobSnapshot, rows: seq<HistoryRow>, first: nat, second: nat)
    requires LegalHistory(job, rows) && Restrained(job, rows)
    requires first < second < |rows| && rows[first].to.Starting? && rows[second].to.Starting?
    ensures exists k ::
      first < k < second && RecurringLegal(rows[k].from, rows[k].to) && !OneShotLegal(rows[k].from, rows[k].to)
  {
    RowAt(job, rows, second);
    if forall k | first < k < second :: OneShotLegal(rows[k].from, rows[k].to) {
      OneShotStretchClimbs(job, rows, first, second);
    } else {
      var k :| first < k < second && !OneShotLegal(rows[k].from, rows[k].to);
      assert RowFollows(job.createdAt, rows, k);
    }
  }

  lemma {:induction false} OneShotStretchClimbs(job: JobSnapshot, rows: seq<HistoryRow>, first: nat, second: nat)
    requires LegalHistory(job, rows) && first < second < |rows|
    requires forall k | first < k < second :: OneShotLegal(rows[k].from, rows[k].to)
    ensures Rank(rows[first].to) <= Rank(rows[second].from)
    decreases second
  {
    assert RowFollows(job.createdAt, rows, second);
    if first + 1 < second {
      OneShotStretchClimbs(job, rows, first, second - 1);
      OneShotEdgesClimb(rows[second - 1].from, rows[second - 1].to);
    }
  }
}
