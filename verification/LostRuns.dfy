/** Which runs a cancellation loses: a canceller that found no active run closes the job although a run
    was claimed meanwhile (`src/cli/dispatch.rs`). Nobody finishes such a run through its job any more, and
    the next startup refuses to load it (`src/infrastructure/sqlite/reconcile.rs`). */
module LostRuns {
  import opened Wrappers
  import opened Primitives
  import opened Transitions
  import opened Jobs
  import opened Runs
  import opened Store
  import opened History
  import opened Protocol
  import opened RunMoves
  import opened RunSafety
  import opened RunOwnership
  import opened JobSafety
  import opened Settlement
  import opened AuditTrail
  import Claims
  import OutcomeSafety

  ghost predicate HasFinished(s: StoreState, job: JobId) {
    exists state: RunState :: state.IsTerminal() && RunEndedAs(s, job, state)
  }

  predicate ClosedEarly(row: HistoryRow) {
    row.to.Cancelled? && row.reason == "cancelled before command start"
  }

  /** A job that is Cancelled in any other way has a finished run. */
  ghost predicate CancelledAfterRun(s: StoreState) {
    forall id, k | 0 <= k < |HistoryOf(s, id)| ::
      HistoryOf(s, id)[k].to.Cancelled? && !ClosedEarly(HistoryOf(s, id)[k]) ==> HasFinished(s, id)
  }

  // ----- one step

  lemma FinishedStays(s: StoreState, s': StoreState, job: JobId)
    requires RunsOk(s) && RunsLater(s, s') && HasFinished(s, job)
    ensures HasFinished(s', job)
  {
    var state: RunState :| state.IsTerminal() && RunEndedAs(s, job, state);
    EndStays(s, s', job, state);
  }

  lemma RunWritesKeep(s: StoreState, s': StoreState)
    requires RunsOk(s) && RunsLater(s, s') && CancelledAfterRun(s) && s'.history == s.history
    ensures CancelledAfterRun(s')
  {
    hide HasFinished, RunsOk, RunsLater, ClosedEarly;
    forall id, k | 0 <= k < |HistoryOf(s', id)| && HistoryOf(s', id)[k].to.Cancelled?
                   && !ClosedEarly(HistoryOf(s', id)[k])
      ensures HasFinished(s', id)
    {
      assert HistoryOf(s', id) == HistoryOf(s, id);
      FinishedStays(s, s', id);
    }
  }

  lemma CommitKeeps(s: StoreState, after: JobSnapshot, from: JobState, actor: Actor, reason: string)
    requires CancelledAfterRun(s)
    requires after.state.Cancelled? && reason != "cancelled before command start" ==> HasFinished(s, after.id)
    ensures CancelledAfterRun(Committed(s, after, from, actor, reason))
  {
    var s' := Committed(s, after, from, actor, reason);
    SameRunsTellTheSame(s, s');
    hide RunEndedAs;
    forall id, k | 0 <= k < |HistoryOf(s', id)| && HistoryOf(s', id)[k].to.Cancelled?
                   && !ClosedEarly(HistoryOf(s', id)[k])
      ensures HasFinished(s', id)
    {
      assert id != after.id ==> HistoryOf(s', id) == HistoryOf(s, id);
      if k < |HistoryOf(s, id)| { assert HistoryOf(s', id)[k] == HistoryOf(s, id)[k]; }
    }
  }

  lemma TransitionKeeps(s: StoreState, job: JobSnapshot, to: JobState, actor: Actor, reason: string, now: UtcTimestamp)
    requires LegalStore(s) && CancelledAfterRun(s)
    requires to.Cancelled? && reason != "cancelled before command start" ==> HasFinished(s, job.id)
    ensures CancelledAfterRun(JobTransitioned(s, job.id, job.revision, to, false, actor, reason, now).0)
  {
    TransitionIsExact(s, job.id, job.revision, to, false, actor, reason, now);
    hide JobTransitioned, LegalHistory, CancelledAfterRun, HasFinished, Committed;
    var (after, r) := JobTransitioned(s, job.id, job.revision, to, false, actor, reason, now);
    if r.Ok? { CommitKeeps(s, r.value, s.jobs[job.id].state, actor, reason); }
  }

  lemma AdvanceKeeps(s: StoreState, job: JobSnapshot, now: UtcTimestamp)
    requires LegalStore(s) && CancelledAfterRun(s)
    ensures CancelledAfterRun(RecurringAdvanced(s, job.id, job.revision, now).0)
  {
    AdvancingIsExact(s, job.id, job.revision, now);
    hide RecurringAdvanced, LegalHistory, CancelledAfterRun, HasFinished, Committed;
    var (after, r) := RecurringAdvanced(s, job.id, job.revision, now);
    if r.Ok? { CommitKeeps(s, r.value, s.jobs[job.id].state, Monitor, ADVANCE_REASON); }
  }

  lemma SettlingKeeps(s: StoreState, job: JobSnapshot, runState: RunState, now: UtcTimestamp)
    requires LegalStore(s) && CancelledAfterRun(s) && HasFinished(s, job.id)
    ensures CancelledAfterRun(FinishJob(s, job, runState, now))
  {
    hide LegalStore, CancelledAfterRun, HasFinished, JobTransitioned, RecurringAdvanced, Reason.Text;
    AdvanceKeeps(s, job, now);
    TransitionKeeps(s, job, JobState.Cancelled, Monitor, CancelledRunFinished.Text(), now);
    TransitionKeeps(s, job, Succeeded, Monitor, CommandSucceeded.Text(), now);
    TransitionKeeps(s, job, JobState.Failed, Monitor, CommandFailed.Text(), now);
    TransitionKeeps(s, job, JobState.Interrupted, Monitor, OutcomeUnknown.Text(), now);
  }

  /** The steps that write job rows. */
  predicate WritesJobs(c: Client) {
    c.DueWaiting? || c.DueStarting? || c.DueRunning? || c.DueFailJob? || c.MonFinishWrite?
    || c.CanRequest? || c.CanNoRun? || c.CanFinishWrite?
  }

  lemma DueKeeps(s: StoreState, c: Client, ch: Choice)
    requires LegalStore(s) && CancelledAfterRun(s) && IsSupervisor(c) && WritesJobs(c)
    ensures CancelledAfterRun(DueStep(s, c, ch).store)
  {
    hide LegalStore, CancelledAfterRun, HasFinished, JobTransitioned, Reason.Text;
    match c
    case DueWaiting(job, now) => TransitionKeeps(s, job, Waiting, Supervisor, LoadedDeadline.Text(), now);
    case DueStarting(job, now) => TransitionKeeps(s, job, Starting, Supervisor, DeadlineDue.Text(), now);
    case DueRunning(job, run, now) => TransitionKeeps(s, job, Running, Supervisor, MonitorClaimed.Text(), now);
    case DueFailJob(job, at) => TransitionKeeps(s, job, JobState.Failed, Supervisor, MonitorLost.Text(), at);
  }

  /** Who closes a job after a run knows that the run is finished. */
  lemma KnowsFinished(s: StoreState, c: Client)
    requires Truthful(s, c)
    ensures c.MonFinishWrite? || (c.CanFinishWrite? && c.target.Cancelled?) ==> HasFinished(s, c.job.id)
  {
    hide RunEndedAs, Backed;
    if c.CanFinishWrite? && c.target.Cancelled? { assert RunCancelled.IsTerminal(); }
  }

  lemma TextOfEarly()
    ensures CancelledEarly.Text() == "cancelled before command start"
  {}

  lemma MonWritersKeep(s: StoreState, c: Client, ch: Choice)
    requires LegalStore(s) && CancelledAfterRun(s) && Truthful(s, c) && c.MonFinishWrite?
    ensures CancelledAfterRun(MonStep(s, c, ch).store)
  {
    KnowsFinished(s, c);
    hide LegalStore, CancelledAfterRun, HasFinished, FinishJob, Truthful;
    SettlingKeeps(s, c.job, c.runState, ch.now);
  }

  lemma CanWritersKeep(s: StoreState, c: Client, ch: Choice)
    requires LegalStore(s) && CancelledAfterRun(s) && Truthful(s, c)
    requires c.CanRequest? || c.CanNoRun? || c.CanFinishWrite?
    ensures CancelledAfterRun(CanStep(s, c, ch).store)
  {
    KnowsFinished(s, c);
    TextOfEarly();
    hide LegalStore, CancelledAfterRun, HasFinished, JobTransitioned, Truthful, Reason.Text;
    match c
    case CanRequest(job, _, _) => TransitionKeeps(s, job, CancelRequested, Cli, CancelAsked.Text(), ch.now);
    case CanNoRun(job, now) => TransitionKeeps(s, job, JobState.Cancelled, Cli, CancelledEarly.Text(), now);
    case CanFinishWrite(job, target) => TransitionKeeps(s, job, target, Cli, CancellationFinished.Text(), ch.now);
  }

  lemma OthersKeepHistory(s: StoreState, c: Client, ch: Choice)
    requires !WritesJobs(c)
    ensures Act(s, c, ch).store.history == s.history
  {
    ActOf(s, c, ch);
    hide Act, LoadJob, LoadRun, LoadClaimed, RunClaimed, PlanRequest, PlanTerminal, TerminalWrite, Started;
    hide LatestActiveRun, CompletionOutcome, WriteRunning;
    if c.DueClaim? { ClaimKeepsJobs(s, c.job.id, c.job.nextDue, c.now, ch.runId, ch.token); }
    if c.MonMarkWrite? { MarkKeepsJobs(s, c.run, c.facts); }
    if IsTerminalWrite(c) { TerminalWriteKeepsJobs(s, c.run, c.finishedAt, OutcomeToWrite(c)); }
  }

  lemma StepKeeps(w: World, e: Event)
    requires RunInv(w) && LegalStore(w.store) && SettlementInv(w) && CancelledAfterRun(w.store)
    requires e.Step? && e.client in w.clients
    ensures CancelledAfterRun(Apply(w, e).store)
  {
    var c := w.clients[e.client];
    assert Truthful(w.store, c);
    hide Act, Apply, RunInv, RunsOk, RunClientOk, LegalStore, Truthful, RowsBacked, CancelledAfterRun, RunsLater, Moves;
    OutcomeSafety.AfterEffects(w, e);
    ClientInv(w, e.client);
    if WritesJobs(c) {
      ActOf(w.store, c, e.choice);
      hide DueStep, MonStep, CanStep;
      if IsSupervisor(c) { DueKeeps(w.store, c, e.choice); }
      else if IsMonitor(c) { MonWritersKeep(w.store, c, e.choice); }
      else { CanWritersKeep(w.store, c, e.choice); }
    } else {
      var m := StepHasMove(w, e);
      MoveIsRunsLater(w.store, Apply(w, e).store, m);
      OthersKeepHistory(w.store, c, e.choice);
      RunWritesKeep(w.store, Apply(w, e).store);
    }
  }

  lemma OtherEventsKeep(mode: Mode, w: World, e: Event)
    requires CancelledAfterRun(w.store) && Enabled(mode, w, e) && !e.Step?
    ensures CancelledAfterRun(Apply(w, e).store)
  {
    var s, s' := w.store, Apply(w, e).store;
    SameRunsTellTheSame(s, s');
    assert forall id :: HistoryOf(s', id) == HistoryOf(s, id);
    hide RunEndedAs, ClosedEarly;
  }

  lemma NextKeeps(mode: Mode, before: World, after: World)
    requires RunInv(before) && LegalStore(before.store) && SettlementInv(before) && CancelledAfterRun(before.store)
    requires Next(mode, before, after)
    ensures CancelledAfterRun(after.store)
  {
    hide RunInv, LegalStore, SettlementInv, CancelledAfterRun, Apply;
    var e := EventBetween(mode, before, after);
    if e.Step? { StepKeeps(before, e); } else { OtherEventsKeep(mode, before, e); }
  }

  lemma {:induction false} TraceKeeps(mode: Mode, ws: seq<World>, i: nat)
    requires Trace(mode, ws) && i < |ws|
    ensures CancelledAfterRun(ws[i].store)
  {
    if i > 0 {
      hide RunInv, JobInv, SettlementInv, Initial, Next, CancelledAfterRun;
      TraceKeeps(mode, ws, i - 1);
      TraceKeepsRuns(mode, ws, i - 1);
      TraceKeepsJobs(mode, ws, i - 1);
      TraceKeepsSettlement(mode, ws, i - 1);
      AuditTrail.LegalNow(ws[i - 1]);
      NextKeeps(mode, ws[i - 1], ws[i]);
    }
  }

  // ----- what a lost run looks like

  /** A finished one-shot job still has an unfinished run, and the request that led to its end was made
      when it was in `from`. */
  ghost predicate Lost(s: StoreState, id: JobId, r: RunId, from: JobState) {
    && id in s.jobs && !s.jobs[id].schedule.RecurringInterval? && s.jobs[id].state.IsTerminal()
    && r in s.runs && s.runs[r].jobId == id && !s.runs[r].state.IsTerminal()
    && var rows := HistoryOf(s, id);
      && |rows| >= 2 && ClosedEarly(rows[|rows| - 1])
      && rows[|rows| - 2].to.CancelRequested? && rows[|rows| - 2].from == from
  }

  lemma ReasonsDiffer()
    ensures "cancelled before command start" != "cancelled run finished"
    ensures "cancelled before command start" != "cancellation finished"
  {
    assert |"cancelled before command start"| != |"cancelled run finished"|;
    assert |"cancelled before command start"| != |"cancellation finished"|;
  }

  /** The run of a one-shot job that is finished with an unfinished run was not waited for by anybody who
      closed the job: it was closed early. */
  lemma ClosedEarlyOnly(mode: Mode, ws: seq<World>, i: nat, id: JobId, q: RunId) returns (k: nat)
    requires Trace(mode, ws) && i < |ws| && id in ws[i].store.jobs
    requires !ws[i].store.jobs[id].schedule.RecurringInterval? && ws[i].store.jobs[id].state.IsTerminal()
    requires q in ws[i].store.runs && ws[i].store.runs[q].jobId == id && !ws[i].store.runs[q].state.IsTerminal()
    ensures k == |HistoryOf(ws[i].store, id)| - 1 && ClosedEarly(HistoryOf(ws[i].store, id)[k])
    ensures HistoryOf(ws[i].store, id)[k].actor.Cli? && HistoryOf(ws[i].store, id)[k].from.CancelRequested?
  {
    var s := ws[i].store;
    TraceKeepsJobs(mode, ws, i);
    AuditTrail.LegalNow(ws[i]);
    k := LastRowIsState(s, id);
    EveryRowNamesItsCause(mode, ws, i, id, k);
    JobEndsTellRuns(mode, ws, i, id, k);
    TraceKeeps(mode, ws, i);
    NoneHasFinished(mode, ws, i, id, q);
    ReasonsDiffer();
    hide Trace, JobInv, LegalStore, RunEndedAs;
  }

  /** The one run of a one-shot job is unfinished, so no run of it has finished. */
  lemma NoneHasFinished(mode: Mode, ws: seq<World>, i: nat, id: JobId, q: RunId)
    requires Trace(mode, ws) && i < |ws| && id in ws[i].store.jobs
    requires !ws[i].store.jobs[id].schedule.RecurringInterval?
    requires q in ws[i].store.runs && ws[i].store.runs[q].jobId == id && !ws[i].store.runs[q].state.IsTerminal()
    ensures !HasFinished(ws[i].store, id)
    ensures forall state: RunState :: state.IsTerminal() ==> !RunEndedAs(ws[i].store, id, state)
  {
    var s := ws[i].store;
    hide Trace;
    forall state: RunState | state.IsTerminal() ensures !RunEndedAs(s, id, state) {
      if RunEndedAs(s, id, state) {
        var r :| r in s.runs && s.runs[r].jobId == id && s.runs[r].state == state;
        Claims.EachOccurrenceRunsOnce(mode, ws, i, r, q);
      }
    }
    hide RunEndedAs;
  }

  /** Its claim rests on a row into Starting, and from there a job only climbs. */
  lemma RequestedAfterStart(mode: Mode, ws: seq<World>, i: nat, id: JobId, q: RunId, k: nat)
    requires Trace(mode, ws) && i < |ws| && id in ws[i].store.jobs
    requires !ws[i].store.jobs[id].schedule.RecurringInterval?
    requires q in ws[i].store.runs && ws[i].store.runs[q].jobId == id
    requires k == |HistoryOf(ws[i].store, id)| - 1 && HistoryOf(ws[i].store, id)[k].from.CancelRequested?
    requires HistoryOf(ws[i].store, id)[k].to.Cancelled?
    ensures k >= 1 && HistoryOf(ws[i].store, id)[k - 1].to.CancelRequested?
    ensures var from := HistoryOf(ws[i].store, id)[k - 1].from; from.Starting? || from.Running?
  {
    var s, claims := ws[i].store, ws[i].claims;
    TraceKeepsJobs(mode, ws, i);
    Claims.TraceKeepsClaims(mode, ws, i);
    TraceKeepsRuns(mode, ws, i);
    var n := Claims.ClaimOf(s, claims, q);
    assert StartedRow(s, claims[n].job, claims[n].revision);
    hide Trace, RunInv, Claims.ClaimsOk, Claims.InOrder, RunsOk, JobClientOk, LegalHistory, Restrained;
    hide JobSafety.ClaimsOk;
    RequestFollowsStart(s.jobs[id], HistoryOf(s, id), claims[n].revision - 2, k);
  }

  lemma RequestFollowsStart(job: JobSnapshot, rows: seq<HistoryRow>, m: nat, k: nat)
    requires LegalHistory(job, rows) && Restrained(job, rows) && !job.schedule.RecurringInterval?
    requires m < |rows| && rows[m].to.Starting?
    requires k == |rows| - 1 && rows[k].from.CancelRequested? && rows[k].to.Cancelled?
    ensures k >= 1 && rows[k - 1].to.CancelRequested? && (rows[k - 1].from.Starting? || rows[k - 1].from.Running?)
  {
    RowAt(job, rows, k);
    RowAt(job, rows, k - 1);
    RanksClimb(job, rows, k - 1);
    hide LegalHistory;
  }

  /** Every finished one-shot job with an unfinished run is such a loss: it was requested from Starting or
      Running by a canceller that had found no active run, and closed at once. */
  lemma OnlyEarlyCancelLosesRuns(mode: Mode, ws: seq<World>, i: nat, id: JobId, q: RunId) returns (from: JobState)
    requires Trace(mode, ws) && i < |ws| && id in ws[i].store.jobs
    requires !ws[i].store.jobs[id].schedule.RecurringInterval? && ws[i].store.jobs[id].state.IsTerminal()
    requires q in ws[i].store.runs && ws[i].store.runs[q].jobId == id && !ws[i].store.runs[q].state.IsTerminal()
    ensures Lost(ws[i].store, id, q, from) && (from.Starting? || from.Running?)
  {
    hide Trace;
    var k := ClosedEarlyOnly(mode, ws, i, id, q);
    RequestedAfterStart(mode, ws, i, id, q, k);
    from := HistoryOf(ws[i].store, id)[k - 1].from;
  }

  /** What the next startup checks before it plans anything: a job has one unfinished run at most, and only
      as long as the job itself is unfinished. */
  ghost predicate LoadsAtStartup(s: StoreState, id: JobId) {
    forall r: RunId, q: RunId ::
      r in s.runs && s.runs[r].jobId == id && !s.runs[r].state.IsTerminal()
      && q in s.runs && s.runs[q].jobId == id && !s.runs[q].state.IsTerminal() ==>
        r == q && id in s.jobs && !s.jobs[id].state.IsTerminal()
  }

  /** At every moment of every run of the system: a one-shot job passes the checks exactly if it has not lost
      its run. */
  lemma LoadsUnlessLost(mode: Mode, ws: seq<World>, i: nat, id: JobId)
    requires Trace(mode, ws) && i < |ws|
    requires id in ws[i].store.jobs && !ws[i].store.jobs[id].schedule.RecurringInterval?
    ensures LoadsAtStartup(ws[i].store, id) <==> forall r, from :: !Lost(ws[i].store, id, r, from)
  {
    var s := ws[i].store;
    hide Trace, Lost;
    if forall r, from :: !Lost(s, id, r, from) {
      forall r: RunId, q: RunId | r in s.runs && s.runs[r].jobId == id && !s.runs[r].state.IsTerminal()
                                  && q in s.runs && s.runs[q].jobId == id && !s.runs[q].state.IsTerminal()
        ensures r == q && !s.jobs[id].state.IsTerminal()
      {
        Claims.EachOccurrenceRunsOnce(mode, ws, i, r, q);
        if s.jobs[id].state.IsTerminal() { var from := OnlyEarlyCancelLosesRuns(mode, ws, i, id, r); }
      }
    }
    forall r, from | Lost(s, id, r, from) ensures !LoadsAtStartup(s, id) { LostDoesNotLoad(s, id, r, from); }
  }

  lemma LostDoesNotLoad(s: StoreState, id: JobId, r: RunId, from: JobState)
    requires Lost(s, id, r, from)
    ensures !LoadsAtStartup(s, id)
  {
    hide ClosedEarly, HistoryOf;
  }
}
