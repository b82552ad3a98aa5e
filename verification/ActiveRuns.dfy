/** At most one unfinished run per job, which startup recovery takes for granted
    (`src/infrastructure/sqlite/reconcile.rs`): a job has at most one attendant, the supervisor from
    its start on or the monitor it started, and only the attendant can bring it back to Waiting. */
module ActiveRuns {
  import opened Wrappers
  import opened Primitives
  import opened Transitions
  import opened Jobs
  import opened Runs
  import opened Store
  import opened History
  import opened Protocol
  import opened RunMoves
  import opened RunSafety
  import opened RunOwnership
  import opened JobSafety
  import Settlement

  /** The job stands before its next start. */
  predicate Idle(state: JobState) {
    state.Scheduled? || state.Waiting?
  }

  predicate Unfinished(runs: map<RunId, Run>, r: RunId, job: JobId) {
    r in runs && runs[r].jobId == job && !runs[r].state.IsTerminal()
  }

  /** The job that a program takes through one round, from the claim to the end. */
  function Attends(c: Client): (r: Option<JobId>) {
    if c.DueClaim? || c.DueRunning? || c.DueSpawn? || c.DueFailRead? || c.DueFailWrite? || c.DueFailJob?
    then Some(c.job.id)
    else if c.MonLoadJob? then Some(c.id)
    else if IsMonitor(c) then Some(c.job.id)
    else None
  }

  /** The job is under way, and no run of it is unfinished but the one the program owns. */
  ghost predicate Focused(s: StoreState, c: Client) {
    Attends(c).Some? ==>
      && Attends(c).value in s.jobs && !Idle(s.jobs[Attends(c).value].state)
      && forall r: RunId :: Unfinished(s.runs, r, Attends(c).value) ==> Owner(c) == Some(r)
  }

  ghost predicate OneActiveRun(s: StoreState) {
    forall job, r, q :: Unfinished(s.runs, r, job) && Unfinished(s.runs, q, job) ==> r == q
  }

  ghost predicate IdleIsFree(s: StoreState) {
    forall job, r :: Unfinished(s.runs, r, job) ==> job in s.jobs && !Idle(s.jobs[job].state)
  }

  ghost predicate OneAttendant(clients: map<ClientId, Client>) {
    forall c, d | c in clients && d in clients && c != d ::
      Attends(clients[c]).Some? ==> Attends(clients[c]) != Attends(clients[d])
  }

  ghost predicate ActiveInv(w: World) {
    && OneActiveRun(w.store) && IdleIsFree(w.store) && OneAttendant(w.clients)
    && forall c :: c in w.clients ==> Focused(w.store, w.clients[c])
  }

  // ----- what a step does to the jobs

  /** No job but one can become idle again. */
  ghost predicate BusyStays(s: StoreState, s': StoreState, but: Option<JobId>) {
    forall id | id in s.jobs :: id in s'.jobs && (Idle(s'.jobs[id].state) ==> Idle(s.jobs[id].state) || but == Some(id))
  }

  /** The recurring edge alone leads back. */
  lemma TransitionStaysBusy(s: StoreState, job: JobSnapshot, to: JobState, actor: Actor, reason: string,
                            now: UtcTimestamp, but: Option<JobId>)
    requires LegalStore(s)
    ensures BusyStays(s, JobTransitioned(s, job.id, job.revision, to, false, actor, reason, now).0, but)
  {
    TransitionIsExact(s, job.id, job.revision, to, false, actor, reason, now);
    hide JobTransitioned, LegalHistory, ValidReason;
  }

  lemma AdvanceStaysBusy(s: StoreState, job: JobSnapshot, now: UtcTimestamp)
    requires LegalStore(s)
    ensures BusyStays(s, RecurringAdvanced(s, job.id, job.revision, now).0, Some(job.id))
  {
    AdvancingIsExact(s, job.id, job.revision, now);
    hide RecurringAdvanced, LegalHistory;
  }

  lemma SameJobsStayBusy(s: StoreState, s': StoreState, but: Option<JobId>)
    requires s'.jobs == s.jobs
    ensures BusyStays(s, s', but)
  {}

  lemma SettlingStaysBusy(s: StoreState, job: JobSnapshot, runState: RunState, now: UtcTimestamp)
    requires LegalStore(s)
    ensures BusyStays(s, FinishJob(s, job, runState, now), Some(job.id))
  {
    hide LegalStore, BusyStays, JobTransitioned, RecurringAdvanced, Reason.Text;
    SameJobsStayBusy(s, s, Some(job.id));
    AdvanceStaysBusy(s, job, now);
    TransitionStaysBusy(s, job, JobState.Cancelled, Monitor, CancelledRunFinished.Text(), now, Some(job.id));
    TransitionStaysBusy(s, job, Succeeded, Monitor, CommandSucceeded.Text(), now, Some(job.id));
    TransitionStaysBusy(s, job, JobState.Failed, Monitor, CommandFailed.Text(), now, Some(job.id));
    TransitionStaysBusy(s, job, JobState.Interrupted, Monitor, OutcomeUnknown.Text(), now, Some(job.id));
  }

  function Freed(c: Client): (r: Option<JobId>) {
    if c.MonFinishWrite? then Some(c.job.id) else None
  }

  lemma DueStaysBusy(s: StoreState, c: Client, ch: Choice)
    requires LegalStore(s) && IsSupervisor(c)
    ensures BusyStays(s, DueStep(s, c, ch).store, None)
  {
    hide LegalStore, BusyStays, JobTransitioned, Reason.Text, LoadJob, RunClaimed, PlanTerminal, TerminalWrite;
    SameJobsStayBusy(s, s, None);
    match c
    case DueWaiting(job, now) => TransitionStaysBusy(s, job, Waiting, Supervisor, LoadedDeadline.Text(), now, None);
    case DueStarting(job, now) => TransitionStaysBusy(s, job, Starting, Supervisor, DeadlineDue.Text(), now, None);
    case DueRunning(job, _, now) => TransitionStaysBusy(s, job, Running, Supervisor, MonitorClaimed.Text(), now, None);
    case DueFailJob(job, at) => TransitionStaysBusy(s, job, JobState.Failed, Supervisor, MonitorLost.Text(), at, None);
    case DueClaim(job, now) =>
      ClaimKeepsJobs(s, job.id, job.nextDue, now, ch.runId, ch.token);
      SameJobsStayBusy(s, DueStep(s, c, ch).store, None);
    case DueFailWrite(job, seen, finishedAt) =>
      TerminalWriteKeepsJobs(s, seen, finishedAt, SPAWN_FAILED);
      SameJobsStayBusy(s, DueStep(s, c, ch).store, None);
    case _ =>
  }

  lemma MonStaysBusy(s: StoreState, c: Client, ch: Choice)
    requires LegalStore(s) && IsMonitor(c)
    ensures BusyStays(s, MonStep(s, c, ch).store, Freed(c))
  {
    hide LegalStore, BusyStays, FinishJob, LoadJob, LoadRun, LoadClaimed, Started, WriteRunning;
    hide PlanTerminal, TerminalWrite, CompletionOutcome;
    match c
    case MonMarkWrite(job, seen, facts) =>
      MarkKeepsJobs(s, seen, facts);
      SameJobsStayBusy(s, MonStep(s, c, ch).store, None);
    case MonRecordWrite(job, seen, finishedAt, outcome) =>
      TerminalWriteKeepsJobs(s, seen, finishedAt, outcome);
      SameJobsStayBusy(s, MonStep(s, c, ch).store, None);
    case MonFinishWrite(job, runState) => SettlingStaysBusy(s, job, runState, ch.now);
    case _ => SameJobsStayBusy(s, s, None);
  }

  lemma CanStaysBusy(s: StoreState, c: Client, ch: Choice)
    requires LegalStore(s) && (c.CanRequest? || c.CanNoRun? || c.CanFinishWrite?)
    ensures BusyStays(s, CanStep(s, c, ch).store, None)
  {
    hide LegalStore, BusyStays, JobTransitioned, Reason.Text;
    SameJobsStayBusy(s, s, None);
    match c
    case CanRequest(job, _, _) => TransitionStaysBusy(s, job, CancelRequested, Cli, CancelAsked.Text(), ch.now, None);
    case CanNoRun(job, now) => TransitionStaysBusy(s, job, JobState.Cancelled, Cli, CancelledEarly.Text(), now, None);
    case CanFinishWrite(job, target) =>
      TransitionStaysBusy(s, job, target, Cli, CancellationFinished.Text(), ch.now, None);
  }

  lemma StepStaysBusy(s: StoreState, c: Client, ch: Choice)
    requires LegalStore(s)
    ensures BusyStays(s, Act(s, c, ch).store, Freed(c))
  {
    ActOf(s, c, ch);
    hide Act, DueStep, MonStep, CanStep, LegalStore, BusyStays;
    if IsSupervisor(c) { DueStaysBusy(s, c, ch); }
    else if IsMonitor(c) { MonStaysBusy(s, c, ch); }
    else if c.CanRequest? || c.CanNoRun? || c.CanFinishWrite? { CanStaysBusy(s, c, ch); }
    else {
      Settlement.CanKeepsJobs(s, c, ch);
      SameJobsStayBusy(s, CanStep(s, c, ch).store, None);
    }
  }

  // ----- who attends next

  /** A round begins: the job left Waiting for this very program. */
  ghost predicate Begins(s: StoreState, s': StoreState, next: Client) {
    && next.DueClaim? && next.job.id in s.jobs && next.job.id in s'.jobs && s'.runs == s.runs
    && Idle(s.jobs[next.job.id].state) && !Idle(s'.jobs[next.job.id].state)
  }

  ghost predicate NextAttends(s: StoreState, c: Client, e: Effect) {
    e.next.Some? && Attends(e.next.value).Some? ==>
      Attends(e.next.value) == Attends(c) || Begins(s, e.store, e.next.value)
  }

  lemma StartBegins(s: StoreState, c: Client, ch: Choice)
    requires LegalStore(s) && c.DueStarting?
    ensures NextAttends(s, c, DueStep(s, c, ch))
  {
    TransitionIsExact(s, c.job.id, c.job.revision, Starting, false, Supervisor, DeadlineDue.Text(), c.now);
    hide JobTransitioned, LegalHistory, Reason.Text, ValidReason;
  }

  lemma DueAttends(s: StoreState, c: Client, ch: Choice)
    requires LegalStore(s) && IsSupervisor(c) && !c.DueStarting?
    ensures NextAttends(s, c, DueStep(s, c, ch))
  {
    hide LegalStore, JobTransitioned, Reason.Text, LoadJob, RunClaimed, PlanTerminal, TerminalWrite, Begins;
    if c.DueRunning? {
      Settlement.MovedIsItself(s, c.job, Running, Supervisor, MonitorClaimed.Text(), c.now);
    }
  }

  lemma LoadAttends(s: StoreState, c: Client, ch: Choice)
    requires LegalStore(s) && (c.MonLoadJob? || c.MonFinishLoad?)
    ensures NextAttends(s, c, MonStep(s, c, ch))
  {
    hide LegalStore, LoadJob, Begins;
    if c.MonLoadJob? { Settlement.LoadedIsItself(s, c.id); } else { Settlement.LoadedIsItself(s, c.job.id); }
  }

  lemma MonAttends(s: StoreState, c: Client, ch: Choice)
    requires IsMonitor(c) && !c.MonLoadJob? && !c.MonFinishLoad?
    ensures NextAttends(s, c, MonStep(s, c, ch))
  {
    hide LoadJob, LoadRun, LoadClaimed, Started, WriteRunning, FinishJob, PlanTerminal, TerminalWrite;
    hide CompletionOutcome, Begins;
  }

  lemma CanAttends(s: StoreState, c: Client, ch: Choice)
    requires !IsSupervisor(c) && !IsMonitor(c)
    ensures NextAttends(s, c, CanStep(s, c, ch))
  {
    hide LoadJob, LoadRun, LoadClaimed, JobTransitioned, PlanRequest, WriteRequested, PlanTerminal, TerminalWrite;
    hide LatestActiveRun, Reason.Text, Begins;
  }

  lemma StepAttends(s: StoreState, c: Client, ch: Choice)
    requires LegalStore(s)
    ensures NextAttends(s, c, Act(s, c, ch))
  {
    ActOf(s, c, ch);
    hide Act, DueStep, MonStep, CanStep, LegalStore, NextAttends;
    if c.DueStarting? { StartBegins(s, c, ch); }
    else if IsSupervisor(c) { DueAttends(s, c, ch); }
    else if c.MonLoadJob? || c.MonFinishLoad? { LoadAttends(s, c, ch); }
    else if IsMonitor(c) { MonAttends(s, c, ch); }
    else { CanAttends(s, c, ch); }
  }

  // ----- the run that is let go

  /** A program that goes on without the run it owned leaves it finished. */
  ghost predicate LetsGoFinished(c: Client, e: Effect) {
    e.next.Some? && Owner(c).Some? && Owner(e.next.value).None? && Attends(e.next.value).Some? ==>
      Owner(c).value in e.store.runs && e.store.runs[Owner(c).value].state.IsTerminal()
  }

  lemma RecordedIsThere(s: StoreState, id: RunId, token: ClaimToken, finishedAt: UtcTimestamp, outcome: RunOutcome)
    ensures PlanTerminal(s, id, token, finishedAt, outcome).AlreadyRecorded? ==>
      id in s.runs && s.runs[id].state.IsTerminal()
  {}

  lemma WrittenIsTerminal(s: StoreState, c: Client)
    requires RunsOk(s) && RunClientOk(s, c) && IsTerminalWrite(c)
    ensures var r := TerminalWrite(s, c.run, c.finishedAt, OutcomeToWrite(c));
      r.Some? ==> c.run.id in r.value.runs && r.value.runs[c.run.id].state.IsTerminal()
  {
    StaleTerminalWriteIsLegal(s, c.run, c.finishedAt, OutcomeToWrite(c));
    hide RunsOk, RunSeen, TerminalWrite, WithOutcome, Consistent;
  }

  lemma StepLetsGo(s: StoreState, c: Client, ch: Choice)
    requires RunsOk(s) && RunClientOk(s, c)
    ensures LetsGoFinished(c, Act(s, c, ch))
  {
    ActOf(s, c, ch);
    if IsTerminalWrite(c) { WrittenIsTerminal(s, c); }
    if c.DueFailRead? { RecordedIsThere(s, c.run.id, c.run.claimToken, c.finishedAt, SPAWN_FAILED); }
    if c.MonRecordRead? { RecordedIsThere(s, c.run.id, c.run.claimToken, c.finishedAt, c.outcome); }
    hide Act, RunsOk, RunClientOk;
    if IsSupervisor(c) { DueLetsGo(s, c, ch); } else if IsMonitor(c) { MonLetsGo(s, c, ch); }
  }

  lemma DueLetsGo(s: StoreState, c: Client, ch: Choice)
    requires IsSupervisor(c)
    requires c.DueFailWrite? ==>
      var r := TerminalWrite(s, c.run, c.finishedAt, SPAWN_FAILED);
      r.Some? ==> c.run.id in r.value.runs && r.value.runs[c.run.id].state.IsTerminal()
    requires c.DueFailRead? && PlanTerminal(s, c.run.id, c.run.claimToken, c.finishedAt, SPAWN_FAILED).AlreadyRecorded?
      ==> c.run.id in s.runs && s.runs[c.run.id].state.IsTerminal()
    ensures LetsGoFinished(c, DueStep(s, c, ch))
  {
    hide JobTransitioned, Reason.Text, LoadJob, RunClaimed, PlanTerminal, TerminalWrite;
  }

  lemma MonLetsGo(s: StoreState, c: Client, ch: Choice)
    requires IsMonitor(c)
    requires c.MonRecordWrite? ==>
      var r := TerminalWrite(s, c.run, c.finishedAt, c.outcome);
      r.Some? ==> c.run.id in r.value.runs && r.value.runs[c.run.id].state.IsTerminal()
    requires c.MonRecordRead? && PlanTerminal(s, c.run.id, c.run.claimToken, c.finishedAt, c.outcome).AlreadyRecorded?
      ==> c.run.id in s.runs && s.runs[c.run.id].state.IsTerminal()
    ensures LetsGoFinished(c, MonStep(s, c, ch))
  {
    hide LoadJob, LoadRun, LoadClaimed, Started, WriteRunning, FinishJob, PlanTerminal, TerminalWrite;
    hide CompletionOutcome;
  }

  // ----- what a step does to the unfinished runs

  /** An unfinished run was so before with the same job, or it has just been claimed. */
  ghost predicate OnlyClaimAdds(s: StoreState, s': StoreState, c: Client, newId: RunId) {
    forall r, job :: Unfinished(s'.runs, r, job) ==>
      Unfinished(s.runs, r, job) || (c.DueClaim? && r == newId && job == c.job.id && s'.jobs == s.jobs)
  }

  lemma ClaimAddsOne(s: StoreState, c: Client, ch: Choice)
    requires c.DueClaim?
    ensures OnlyClaimAdds(s, DueStep(s, c, ch).store, c, ch.runId)
  {
    ClaimIsExact(s, c.job.id, c.job.nextDue, c.now, ch.runId, ch.token);
    hide RunClaimed, CanClaim, HighestSequence;
  }

  lemma MoveAddsNone(s: StoreState, s': StoreState, m: Move, c: Client, newId: RunId)
    requires RunsOk(s) && Moves(s, s', m) && !m.Insert?
    ensures OnlyClaimAdds(s, s', c, newId)
  {
    hide Consistent;
  }

  lemma StepAddsOnlyClaim(s: StoreState, c: Client, ch: Choice)
    requires RunsOk(s) && RunClientOk(s, c)
    ensures OnlyClaimAdds(s, Act(s, c, ch).store, c, ch.runId)
  {
    ActOf(s, c, ch);
    StepMakesMove(s, c, ch);
    hide Act, DueStep, MonStep, CanStep, RunsOk, RunClientOk, Moves, OnlyClaimAdds;
    if c.DueClaim? { ClaimAddsOne(s, c, ch); }
    else if Moves(s, Act(s, c, ch).store, MoveOf(c, ch)) {
      MoveAddsNone(s, Act(s, c, ch).store, MoveOf(c, ch), c, ch.runId);
    } else {
      MoveAddsNone(s, Act(s, c, ch).store, Stay, c, ch.runId);
    }
  }

  // ----- the invariant

  lemma StoreStaysFree(s: StoreState, s': StoreState, c: Client, newId: RunId)
    requires OneActiveRun(s) && IdleIsFree(s) && Focused(s, c)
    requires BusyStays(s, s', Freed(c)) && OnlyClaimAdds(s, s', c, newId)
    ensures OneActiveRun(s') && IdleIsFree(s')
  {}

  lemma OthersStayFocused(s: StoreState, s': StoreState, c: Client, d: Client, newId: RunId)
    requires Focused(s, d) && (Attends(c).Some? ==> Attends(c) != Attends(d))
    requires BusyStays(s, s', Freed(c)) && OnlyClaimAdds(s, s', c, newId)
    ensures Focused(s', d)
  {}

  lemma NextIsFocused(s: StoreState, c: Client, e: Effect, newId: RunId)
    requires IdleIsFree(s) && Focused(s, c)
    requires BusyStays(s, e.store, Freed(c)) && OnlyClaimAdds(s, e.store, c, newId) && NextAttends(s, c, e)
    requires LetsGoFinished(c, e) && NextOwned(s, c, e, newId) && (Freed(c).Some? ==> e.next.None?)
    requires c.DueClaim? && e.next.Some? ==> Owner(e.next.value) == Some(newId)
    ensures e.next.Some? ==> Focused(e.store, e.next.value)
  {
    hide Owned;
  }

  lemma ChildIsFocused(s: StoreState, c: Client, s': StoreState)
    requires c.DueSpawn? && Focused(s, c) && s'.jobs == s.jobs && s'.runs == s.runs
    ensures Focused(s', MonLoadJob(c.job.id, c.run.id)) && Attends(MonLoadJob(c.job.id, c.run.id)) == Attends(c)
  {}

  lemma ClaimOwnsNew(s: StoreState, c: Client, ch: Choice)
    requires c.DueClaim?
    ensures var e := Act(s, c, ch); e.next.Some? ==> Owner(e.next.value) == Some(ch.runId)
  {
    ActOf(s, c, ch);
    ClaimIsExact(s, c.job.id, c.job.nextDue, c.now, ch.runId, ch.token);
    hide Act, RunClaimed, CanClaim, HighestSequence;
  }

  lemma FinishEnds(s: StoreState, c: Client, ch: Choice)
    requires c.MonFinishWrite?
    ensures Act(s, c, ch).next.None?
  {
    hide FinishJob;
  }

  lemma ActorStaysFocused(s: StoreState, c: Client, ch: Choice)
    requires RunsOk(s) && RunClientOk(s, c) && Owned(s, c) && LegalStore(s)
    requires OneActiveRun(s) && IdleIsFree(s) && Focused(s, c)
    ensures var e := Act(s, c, ch);
      && OneActiveRun(e.store) && IdleIsFree(e.store)
      && BusyStays(s, e.store, Freed(c)) && OnlyClaimAdds(s, e.store, c, ch.runId) && NextAttends(s, c, e)
      && (e.next.Some? ==> Focused(e.store, e.next.value))
  {
    hide Act, RunsOk, RunClientOk, Owned, LegalStore, OneActiveRun, IdleIsFree, Focused, BusyStays, OnlyClaimAdds;
    hide NextAttends, LetsGoFinished, NextOwned;
    StepStaysBusy(s, c, ch);
    StepAddsOnlyClaim(s, c, ch);
    StepAttends(s, c, ch);
    StepLetsGo(s, c, ch);
    StepKeepsOwned(s, c, ch);
    if c.DueClaim? { ClaimOwnsNew(s, c, ch); }
    if c.MonFinishWrite? { FinishEnds(s, c, ch); }
    StoreStaysFree(s, Act(s, c, ch).store, c, ch.runId);
    NextIsFocused(s, c, Act(s, c, ch), ch.runId);
  }

  lemma BeginsAlone(s: StoreState, s': StoreState, next: Client, d: Client)
    requires Begins(s, s', next) && Focused(s, d)
    ensures Attends(d) != Attends(next)
  {}

  lemma StepKeepsActive(w: World, e: Event)
    requires RunInv(w) && OwnInv(w) && LegalStore(w.store) && ActiveInv(w)
    requires e.Step? && e.client in w.clients && e.child !in w.clients
    ensures ActiveInv(Apply(w, e))
  {
    var c, w' := w.clients[e.client], Apply(w, e);
    var effect := Act(w.store, c, e.choice);
    hide Act, Apply, RunInv, Owned, RunsOk, RunClientOk, LegalStore, OneActiveRun, IdleIsFree, Focused, BusyStays;
    hide OnlyClaimAdds, NextAttends;
    ClientInv(w, e.client);
    ActorStaysFocused(w.store, c, e.choice);
    AfterStep(w, e);
    OnlyMonitorsAreSpawned(w.store, c, e.choice);
    forall d | d in w'.clients ensures Focused(w'.store, w'.clients[d]) {
      if d == e.child && effect.spawned == Some(w'.clients[d]) { ChildIsFocused(w.store, c, w'.store); }
      else if d != e.client { OthersStayFocused(w.store, w'.store, c, w.clients[d], e.choice.runId); }
    }
    AttendantsStayAlone(w, e);
  }

  /** Every program of the world after a step attends what it attended, takes over from the acting
      program, or begins. */
  lemma AttendantsStayAlone(w: World, e: Event)
    requires ActiveInv(w) && e.Step? && e.client in w.clients && e.child !in w.clients
    requires NextAttends(w.store, w.clients[e.client], Act(w.store, w.clients[e.client], e.choice))
    ensures OneAttendant(Apply(w, e).clients)
  {
    var c, w' := w.clients[e.client], Apply(w, e);
    var effect := Act(w.store, c, e.choice);
    AfterStep(w, e);
    OnlyMonitorsAreSpawned(w.store, c, e.choice);
    hide Act, Apply, OneActiveRun, IdleIsFree, Focused, Begins;
    forall a, b | a in w'.clients && b in w'.clients && a != b && Attends(w'.clients[a]).Some?
      ensures Attends(w'.clients[a]) != Attends(w'.clients[b])
    {
      if a == e.client && b in w.clients && w'.clients[b] == w.clients[b] {
        if Begins(w.store, w'.store, w'.clients[a]) { BeginsAlone(w.store, w'.store, w'.clients[a], w.clients[b]); }
      }
      if b == e.client && a in w.clients && w'.clients[a] == w.clients[a] {
        if Begins(w.store, w'.store, w'.clients[b]) { BeginsAlone(w.store, w'.store, w'.clients[b], w.clients[a]); }
      }
    }
  }

  lemma OtherEventsKeepActive(mode: Mode, w: World, e: Event)
    requires ActiveInv(w) && Enabled(mode, w, e) && !e.Step? && !mode.strays
    ensures ActiveInv(Apply(w, e))
  {}

  lemma NextKeepsActive(mode: Mode, before: World, after: World)
    requires RunInv(before) && OwnInv(before) && LegalStore(before.store) && ActiveInv(before)
    requires Next(mode, before, after) && !mode.strays
    ensures ActiveInv(after)
  {
    hide RunInv, OwnInv, LegalStore, ActiveInv, Apply;
    var e := EventBetween(mode, before, after);
    if e.Step? { StepKeepsActive(before, e); } else { OtherEventsKeepActive(mode, before, e); }
  }

  lemma NothingActiveYet(w: World)
    requires Initial(w)
    ensures ActiveInv(w)
  {}

  lemma LegalNow(w: World)
    requires JobInv(w)
    ensures LegalStore(w.store)
  {
    hide LegalStore;
  }

  lemma {:induction false} TraceKeepsActive(mode: Mode, ws: seq<World>, i: nat)
    requires Trace(mode, ws) && i < |ws| && !mode.strays
    ensures ActiveInv(ws[i])
  {
    hide RunInv, OwnInv, JobInv, ActiveInv, Initial, Next;
    if i == 0 {
      NothingActiveYet(ws[0]);
    } else {
      TraceKeepsActive(mode, ws, i - 1);
      TraceKeepsRuns(mode, ws, i - 1);
      TraceKeepsOwners(mode, ws, i - 1);
      TraceKeepsJobs(mode, ws, i - 1);
      LegalNow(ws[i - 1]);
      NextKeepsActive(mode, ws[i - 1], ws[i]);
    }
  }

  /** In every run of a system whose monitors are started by supervisors only: a job never has two
      unfinished runs, and none at all while it is Scheduled or Waiting for its next round. */
  lemma AtMostOneActiveRun(mode: Mode, ws: seq<World>, i: nat, r: RunId, q: RunId)
    requires Trace(mode, ws) && i < |ws| && !mode.strays
    requires r in ws[i].store.runs && q in ws[i].store.runs
    requires ws[i].store.runs[r].jobId == ws[i].store.runs[q].jobId
    requires !ws[i].store.runs[r].state.IsTerminal() && !ws[i].store.runs[q].state.IsTerminal()
    ensures r == q
    ensures var job := ws[i].store.runs[r].jobId;
      job in ws[i].store.jobs && !ws[i].store.jobs[job].state.Scheduled? && !ws[i].store.jobs[job].state.Waiting?
  {
    TraceKeepsActive(mode, ws, i);
    hide Trace, Focused;
    var job := ws[i].store.runs[r].jobId;
    assert Unfinished(ws[i].store.runs, r, job) && Unfinished(ws[i].store.runs, q, job);
  }

  lemma NewestIsFound(s: StoreState, job: JobId, r: RunId)
    requires Unfinished(s.runs, r, job)
    requires forall q :: Unfinished(s.runs, q, job) && q != r ==> s.runs[q].sequence < s.runs[r].sequence
    ensures LatestActiveRun(s, job) == Some(s.runs[r])
  {
    assert IsLatestActive(s.runs, job, r);
    forall q | IsLatestActive(s.runs, job, q) ensures q == r { assert Unfinished(s.runs, q, job); }
  }

  /** So what a canceller asks for has one answer: the unfinished run if there is one, and none exactly if
      there is none. */
  lemma CancellerFindsTheRun(mode: Mode, ws: seq<World>, i: nat, job: JobId)
    requires Trace(mode, ws) && i < |ws| && !mode.strays
    ensures var s := ws[i].store;
      && (LatestActiveRun(s, job).None? <==> forall r :: !Unfinished(s.runs, r, job))
      && (forall r :: Unfinished(s.runs, r, job) ==> LatestActiveRun(s, job) == Some(s.runs[r]))
  {
    var s := ws[i].store;
    TraceKeepsActive(mode, ws, i);
    hide Trace, Focused, LatestActiveRun;
    forall r | Unfinished(s.runs, r, job) ensures LatestActiveRun(s, job) == Some(s.runs[r]) {
      NewestIsFound(s, job, r);
    }
    NothingToFind(s, job);
  }

  lemma NothingToFind(s: StoreState, job: JobId)
    ensures (forall r :: !Unfinished(s.runs, r, job)) ==> LatestActiveRun(s, job).None?
  {
    if exists r :: IsLatestActive(s.runs, job, r) {
      var r :| IsLatestActive(s.runs, job, r);
      assert Unfinished(s.runs, r, job);
    }
  }
}
