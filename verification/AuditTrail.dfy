/** The transition table as an audit trail: each row tells who took the edge and why. */
module AuditTrail {
  import opened Wrappers
  import opened Primitives
  import opened Transitions
  import opened Jobs
  import opened Runs
  import opened Store
  import opened History
  import opened Protocol
  import opened RunOwnership
  import opened JobSafety

  /** Who takes an edge between two job states, and the reason that goes into the table. */
  predicate Named(from: JobState, to: JobState, actor: Actor, reason: string) {
    match to
    case Scheduled => false
    case Waiting =>
      || (from.Scheduled? && actor.Supervisor? && reason == "supervisor loaded deadline")
      || (actor.Monitor? && reason == "next fixed-rate occurrence")
    case Starting => actor.Supervisor? && reason == "deadline became due"
    case Running => actor.Supervisor? && reason == "run monitor claimed command"
    case CancelRequested => actor.Cli? && reason == "cancel requested"
    case Succeeded => (actor.Monitor? && reason == "command exited successfully") || ClosedByCanceller(actor, reason)
    case Failed =>
      || (actor.Monitor? && reason == "command failed")
      || (from in {Starting, Running, CancelRequested} && actor.Supervisor? && reason == "run monitor could not start")
      || ClosedByCanceller(actor, reason)
    case Cancelled =>
      && from.CancelRequested?
      && (|| (actor.Monitor? && reason == "cancelled run finished")
          || (actor.Cli? && reason == "cancelled before command start")
          || ClosedByCanceller(actor, reason))
    case Interrupted => (actor.Monitor? && reason == "command outcome is unknown") || ClosedByCanceller(actor, reason)
    case Missed => false
  }

  predicate ClosedByCanceller(actor: Actor, reason: string) {
    actor.Cli? && reason == "cancellation finished"
  }

  predicate NamedRow(row: HistoryRow) {
    Named(row.from, row.to, row.actor, row.reason)
  }

  ghost predicate RowsNamed(s: StoreState) {
    forall id, k | 0 <= k < |HistoryOf(s, id)| :: NamedRow(HistoryOf(s, id)[k])
  }

  /** A canceller closes a job only with an end. */
  predicate Aims(c: Client) {
    c.CanFinishWrite? ==> c.target in {Succeeded, JobState.Failed, JobState.Cancelled, JobState.Interrupted}
  }

  ghost predicate AuditInv(w: World) {
    RowsNamed(w.store) && forall c :: c in w.clients ==> Aims(w.clients[c])
  }

  // ----- one commit

  lemma CommitIsNamed(s: StoreState, after: JobSnapshot, from: JobState, actor: Actor, reason: string)
    requires RowsNamed(s) && Named(from, after.state, actor, reason)
    ensures RowsNamed(Committed(s, after, from, actor, reason))
  {
    hide Named;
    var s' := Committed(s, after, from, actor, reason);
    forall id, k | 0 <= k < |HistoryOf(s', id)| ensures NamedRow(HistoryOf(s', id)[k]) {
      assert id != after.id ==> HistoryOf(s', id) == HistoryOf(s, id);
      if k < |HistoryOf(s, id)| { assert NamedRow(HistoryOf(s, id)[k]); }
    }
  }

  lemma TransitionIsNamed(s: StoreState, job: JobSnapshot, to: JobState, actor: Actor, reason: string,
                          now: UtcTimestamp)
    requires LegalStore(s) && RowsNamed(s)
    requires forall from | from in JobSources(to, false) :: Named(from, to, actor, reason)
    ensures RowsNamed(JobTransitioned(s, job.id, job.revision, to, false, actor, reason, now).0)
  {
    TransitionIsExact(s, job.id, job.revision, to, false, actor, reason, now);
    hide JobTransitioned, LegalHistory, RowsNamed, Named, JobSources, Committed;
    var (after, r) := JobTransitioned(s, job.id, job.revision, to, false, actor, reason, now);
    if r.Ok? { CommitIsNamed(s, r.value, s.jobs[job.id].state, actor, reason); }
  }

  lemma AdvanceIsNamed(s: StoreState, job: JobSnapshot, now: UtcTimestamp)
    requires LegalStore(s) && RowsNamed(s)
    ensures RowsNamed(RecurringAdvanced(s, job.id, job.revision, now).0)
  {
    AdvancingIsExact(s, job.id, job.revision, now);
    hide RecurringAdvanced, LegalHistory, RowsNamed, Committed;
    var (after, r) := RecurringAdvanced(s, job.id, job.revision, now);
    if r.Ok? { CommitIsNamed(s, r.value, s.jobs[job.id].state, Monitor, ADVANCE_REASON); }
  }

  lemma SameRowsAreNamed(s: StoreState, s': StoreState)
    requires RowsNamed(s) && s'.history == s.history
    ensures RowsNamed(s')
  {
    assert forall id :: HistoryOf(s', id) == HistoryOf(s, id);
    hide NamedRow;
  }

  lemma SettlingIsNamed(s: StoreState, job: JobSnapshot, runState: RunState, now: UtcTimestamp)
    requires LegalStore(s) && RowsNamed(s)
    ensures RowsNamed(FinishJob(s, job, runState, now))
  {
    hide LegalStore, RowsNamed, JobTransitioned, RecurringAdvanced;
    AdvanceIsNamed(s, job, now);
    TransitionIsNamed(s, job, JobState.Cancelled, Monitor, CancelledRunFinished.Text(), now);
    TransitionIsNamed(s, job, Succeeded, Monitor, CommandSucceeded.Text(), now);
    TransitionIsNamed(s, job, JobState.Failed, Monitor, CommandFailed.Text(), now);
    TransitionIsNamed(s, job, JobState.Interrupted, Monitor, OutcomeUnknown.Text(), now);
  }

  // ----- one step

  lemma DueNamesRows(s: StoreState, c: Client, ch: Choice)
    requires LegalStore(s) && RowsNamed(s) && IsSupervisor(c)
    ensures RowsNamed(DueStep(s, c, ch).store)
  {
    hide LegalStore, RowsNamed, JobTransitioned, LoadJob, RunClaimed, PlanTerminal, TerminalWrite;
    match c
    case DueWaiting(job, now) => TransitionIsNamed(s, job, Waiting, Supervisor, LoadedDeadline.Text(), now);
    case DueStarting(job, now) => TransitionIsNamed(s, job, Starting, Supervisor, DeadlineDue.Text(), now);
    case DueRunning(job, run, now) => TransitionIsNamed(s, job, Running, Supervisor, MonitorClaimed.Text(), now);
    case DueFailJob(job, at) => TransitionIsNamed(s, job, JobState.Failed, Supervisor, MonitorLost.Text(), at);
    case DueClaim(job, now) =>
      ClaimKeepsJobs(s, job.id, job.nextDue, now, ch.runId, ch.token);
      SameRowsAreNamed(s, DueStep(s, c, ch).store);
    case DueFailWrite(job, seen, finishedAt) =>
      TerminalWriteKeepsJobs(s, seen, finishedAt, SPAWN_FAILED);
      SameRowsAreNamed(s, DueStep(s, c, ch).store);
    case _ =>
  }

  lemma MonNamesRows(s: StoreState, c: Client, ch: Choice)
    requires LegalStore(s) && RowsNamed(s) && IsMonitor(c)
    ensures RowsNamed(MonStep(s, c, ch).store)
  {
    hide LegalStore, RowsNamed, FinishJob, LoadJob, LoadRun, LoadClaimed, Started, WriteRunning;
    hide PlanTerminal, TerminalWrite, CompletionOutcome;
    match c
    case MonMarkWrite(job, seen, facts) =>
      MarkKeepsJobs(s, seen, facts);
      SameRowsAreNamed(s, MonStep(s, c, ch).store);
    case MonRecordWrite(job, seen, finishedAt, outcome) =>
      TerminalWriteKeepsJobs(s, seen, finishedAt, outcome);
      SameRowsAreNamed(s, MonStep(s, c, ch).store);
    case MonFinishWrite(job, runState) => SettlingIsNamed(s, job, runState, ch.now);
    case _ =>
  }

  lemma CanNamesRows(s: StoreState, c: Client, ch: Choice)
    requires LegalStore(s) && RowsNamed(s) && Aims(c) && (c.CanRequest? || c.CanNoRun? || c.CanFinishWrite?)
    ensures RowsNamed(CanStep(s, c, ch).store)
  {
    hide LegalStore, RowsNamed, JobTransitioned;
    match c
    case CanRequest(job, _, _) => TransitionIsNamed(s, job, CancelRequested, Cli, CancelAsked.Text(), ch.now);
    case CanNoRun(job, now) => TransitionIsNamed(s, job, JobState.Cancelled, Cli, CancelledEarly.Text(), now);
    case CanFinishWrite(job, target) => TransitionIsNamed(s, job, target, Cli, CancellationFinished.Text(), ch.now);
  }

  lemma CanKeepsRows(s: StoreState, c: Client, ch: Choice)
    requires !IsSupervisor(c) && !IsMonitor(c) && !c.CanRequest? && !c.CanNoRun? && !c.CanFinishWrite?
    ensures CanStep(s, c, ch).store.history == s.history
  {
    hide LoadJob, LoadRun, LoadClaimed, PlanRequest, PlanTerminal, TerminalWrite, LatestActiveRun;
    if c.CanRecordWrite? { TerminalWriteKeepsJobs(s, c.run, c.finishedAt, CANCELLED_EARLY); }
  }

  lemma StepNamesRows(s: StoreState, c: Client, ch: Choice)
    requires LegalStore(s) && RowsNamed(s) && Aims(c)
    ensures RowsNamed(Act(s, c, ch).store)
  {
    ActOf(s, c, ch);
    hide Act, DueStep, MonStep, CanStep, LegalStore, RowsNamed;
    if IsSupervisor(c) { DueNamesRows(s, c, ch); }
    else if IsMonitor(c) { MonNamesRows(s, c, ch); }
    else if c.CanRequest? || c.CanNoRun? || c.CanFinishWrite? { CanNamesRows(s, c, ch); }
    else {
      CanKeepsRows(s, c, ch);
      SameRowsAreNamed(s, CanStep(s, c, ch).store);
    }
  }

  lemma NextAims(s: StoreState, c: Client, ch: Choice)
    ensures var e := Act(s, c, ch); e.next.Some? ==> Aims(e.next.value)
  {
    ActOf(s, c, ch);
    hide Act, LoadJob, LoadRun, LoadClaimed, JobTransitioned, RunClaimed, PlanRequest, WriteRequested, PlanTerminal;
    hide TerminalWrite, Started, WriteRunning, FinishJob, CompletionOutcome, LatestActiveRun, Reason.Text;
  }

  // ----- the whole system

  lemma NextKeepsAudit(mode: Mode, before: World, after: World)
    requires LegalStore(before.store) && AuditInv(before) && Next(mode, before, after)
    ensures AuditInv(after)
  {
    hide LegalStore, RowsNamed, Act, Aims;
    var e := EventBetween(mode, before, after);
    match e
    case Submit(job) => SameRowsAreNamed(before.store, after.store);
    case Arrive(_, program) => assert Aims(program) by { NewcomerAims(program); }
    case Stop(_) =>
    case Step(client, choice, child) =>
      StepNamesRows(before.store, before.clients[client], choice);
      NextAims(before.store, before.clients[client], choice);
      OnlyMonitorsAreSpawned(before.store, before.clients[client], choice);
      AfterStep(before, e);
      hide Apply;
      forall d | d in after.clients ensures Aims(after.clients[d]) {
        if d == child { NewcomerAims(after.clients[d]); }
      }
  }

  lemma NewcomerAims(c: Client)
    ensures !c.CanFinishWrite? ==> Aims(c)
  {}

  lemma {:induction false} TraceKeepsAudit(mode: Mode, ws: seq<World>, i: nat)
    requires Trace(mode, ws) && i < |ws|
    ensures AuditInv(ws[i])
  {
    if i > 0 {
      hide AuditInv, Next, Initial, JobInv;
      TraceKeepsAudit(mode, ws, i - 1);
      TraceKeepsJobs(mode, ws, i - 1);
      LegalNow(ws[i - 1]);
      NextKeepsAudit(mode, ws[i - 1], ws[i]);
    }
  }

  lemma LegalNow(w: World)
    requires JobInv(w)
    ensures LegalStore(w.store)
  {
    hide LegalStore;
  }

  /** Over every run of the system, at every moment: each row of the transition table was written by the
      program that takes this edge, with the reason that belongs to it. In particular only cancellers
      request a cancellation, only the supervisor starts a job, and a job is Cancelled from
      CancelRequested alone. */
  lemma EveryRowNamesItsCause(mode: Mode, ws: seq<World>, i: nat, id: JobId, k: nat)
    requires Trace(mode, ws) && i < |ws| && k < |HistoryOf(ws[i].store, id)|
    ensures var row := HistoryOf(ws[i].store, id)[k]; Named(row.from, row.to, row.actor, row.reason)
  {
    TraceKeepsAudit(mode, ws, i);
    hide Trace, Named;
    assert NamedRow(HistoryOf(ws[i].store, id)[k]);
  }
}
