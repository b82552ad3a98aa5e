/** Startup recovery planning (`src/application/reconcile.rs`, `src/supervisor/recovery.rs`). */
module Recovery {
  import opened Wrappers
  import opened Primitives
  import opened Transitions
  import opened Recurrence
  import opened Jobs
  import opened Runs
  import opened Sorting
  import opened Deadlines
  import opened Heap
  import EventLoop

  datatype IdentityStatus = Alive | Dead | Changed

  datatype CommandFate = FateAlive | FateDead | FateChanged | FateUnknown

  datatype RecoveryRecord = RecoveryRecord(job: JobSnapshot, activeRun: Option<Run>)

  datatype RecoveredDeadline = RecoveredDeadline(jobId: JobId, scheduledFor: UtcTimestamp, elapsedDue: ElapsedInstant)

  datatype RecoveryAction =
    | Interrupt(jobId: JobId, expectedRevision: Counter, run: Option<(RunId, ClaimToken)>, fate: CommandFate)
    | MarkMissed(jobId: JobId, expectedRevision: Counter)
    | AdvanceRecurring(jobId: JobId, expectedRevision: Counter, nextDue: UtcTimestamp)

  datatype RecoveryPlan = RecoveryPlan(
    deadlines: seq<RecoveredDeadline>, preservedRuns: seq<RunId>, actions: seq<RecoveryAction>)

  datatype ReconciliationError =
    | InvalidBootIdentity | TerminalJobLoaded(jobId: JobId) | UnexpectedActiveRun(jobId: JobId) | DeadlineOverflow

  /** The inspector answers the same question the same way for as long as planning lasts; `None` is
      a failed inspection. */
  type Inspector = ProcessIdentity -> Option<IdentityStatus>

  datatype Context = Context(inspector: Inspector, wallNow: UtcTimestamp, elapsedNow: ElapsedInstant, boot: string)

  predicate Awaits(state: JobState) {
    state.Scheduled? || state.Waiting?
  }

  predicate IsActive(state: JobState) {
    state.Starting? || state.Running? || state.CancelRequested?
  }

  predicate ValidBoot(boot: string) {
    boot != "" && '\0' !in boot
  }

  function InterruptAction(record: RecoveryRecord, run: Option<(RunId, ClaimToken)>, fate: CommandFate)
    : (r: RecoveryAction)
  {
    Interrupt(record.job.id, record.job.revision, run, fate)
  }

  function InspectFate(ctx: Context, identity: Option<ProcessIdentity>): (r: CommandFate) {
    if identity.None? then FateUnknown
    else if identity.value.bootIdentity != ctx.boot then FateChanged
    else
      match ctx.inspector(identity.value)
      case Some(Alive) => FateAlive
      case Some(Dead) => FateDead
      case Some(Changed) => FateChanged
      case None => FateUnknown
  }

  function DeadlineFor(ctx: Context, jobId: JobId, scheduledFor: UtcTimestamp)
    : (r: Result<RecoveredDeadline, ReconciliationError>)
  {
    var due := ctx.elapsedNow + Max(scheduledFor - ctx.wallNow, 0);
    if due <= U128_MAX then Ok(RecoveredDeadline(jobId, scheduledFor, due)) else Err(DeadlineOverflow)
  }

  // ----- what one record contributes

  datatype Share = Share(deadline: Option<RecoveredDeadline>, preserved: Option<RunId>, action: Option<RecoveryAction>)

  function ActiveShare(ctx: Context, record: RecoveryRecord): (r: Share) {
    if record.activeRun.None? || record.activeRun.value.state.IsTerminal() then
      Share(None, None, Some(InterruptAction(record, None, FateUnknown)))
    else
      var run := record.activeRun.value;
      var monitorAlive := run.monitorIdentity.Some? && run.monitorIdentity.value.bootIdentity == ctx.boot
                          && ctx.inspector(run.monitorIdentity.value) == Some(Alive);
      if monitorAlive && (run.state.RunRunning? || run.state.RunCancelRequested?) then Share(None, Some(run.id), None)
      else Share(None, None,
                 Some(InterruptAction(record, Some((run.id, run.claimToken)), InspectFate(ctx, run.commandIdentity))))
  }

  function WaitingShare(ctx: Context, record: RecoveryRecord): (r: Result<Share, ReconciliationError>) {
    var job := record.job;
    if job.nextDue > ctx.wallNow then
      match DeadlineFor(ctx, job.id, job.nextDue)
      case Err(e) => Err(e)
      case Ok(d) => Ok(Share(Some(d), None, None))
    else if job.missedPolicy.RunLatest? then
      var now := RecoveredDeadline(job.id, job.nextDue, ctx.elapsedNow);
      if !job.schedule.RecurringInterval? then Ok(Share(Some(now), None, None))
      else
        match NextFixedRateUtc(job.schedule.anchor, ctx.wallNow, job.schedule.interval)
        case Err(_) => Err(DeadlineOverflow)
        case Ok(next) => Ok(Share(Some(now), None, Some(AdvanceRecurring(job.id, job.revision, next))))
    else if job.missedPolicy.Skip? && job.schedule.RecurringInterval? then
      match NextFixedRateUtc(job.schedule.anchor, ctx.wallNow, job.schedule.interval)
      case Err(_) => Err(DeadlineOverflow)
      case Ok(next) =>
        match DeadlineFor(ctx, job.id, next)
        case Err(e) => Err(e)
        case Ok(d) => Ok(Share(Some(d), None, Some(AdvanceRecurring(job.id, job.revision, next))))
    else Ok(Share(None, None, Some(MarkMissed(job.id, job.revision))))
  }

  function ShareOf(ctx: Context, record: RecoveryRecord): (r: Result<Share, ReconciliationError>) {
    if record.job.state.IsTerminal() then Err(TerminalJobLoaded(record.job.id))
    else if IsActive(record.job.state) then Ok(ActiveShare(ctx, record))
    else if record.activeRun.Some? then Err(UnexpectedActiveRun(record.job.id))
    else WaitingShare(ctx, record)
  }

  function DeadlineIn(ctx: Context): (r: RecoveryRecord -> Option<RecoveredDeadline>) {
    record => var share := ShareOf(ctx, record); if share.Ok? then share.value.deadline else None
  }

  function PreservedIn(ctx: Context): (r: RecoveryRecord -> Option<RunId>) {
    record => var share := ShareOf(ctx, record); if share.Ok? then share.value.preserved else None
  }

  function ActionIn(ctx: Context): (r: RecoveryRecord -> Option<RecoveryAction>) {
    record => var share := ShareOf(ctx, record); if share.Ok? then share.value.action else None
  }

  predicate NoLaterDeadline(a: RecoveredDeadline, b: RecoveredDeadline) {
    a.elapsedDue < b.elapsedDue || (a.elapsedDue == b.elapsedDue && a.jobId <= b.jobId)
  }

  const DEADLINE_ORDER: (RecoveredDeadline, RecoveredDeadline) -> bool := (a, b) => NoLaterDeadline(a, b)
  const RUN_ORDER: (RunId, RunId) -> bool := (a, b) => a <= b

  lemma OrdersAreTotal()
    ensures TotalOrder(DEADLINE_ORDER) && TotalOrder(RUN_ORDER)
  {}

  /** A plan for these records: the shares of all of them, deadlines and runs sorted, actions in
      record order. The sort is only known to sort. */
  ghost predicate IsPlan(ctx: Context, records: seq<RecoveryRecord>, plan: RecoveryPlan) {
    && (forall k | 0 <= k < |records| :: ShareOf(ctx, records[k]).Ok?)
    && InOrder(DEADLINE_ORDER, plan.deadlines)
    && multiset(plan.deadlines) == multiset(Listed(DeadlineIn(ctx), records))
    && InOrder(RUN_ORDER, plan.preservedRuns)
    && multiset(plan.preservedRuns) == multiset(Listed(PreservedIn(ctx), records))
    && plan.actions == Listed(ActionIn(ctx), records)
  }

  // ----- the planner

  /** The plan under construction. */
  class Planner {
    var deadlines: seq<RecoveredDeadline>
    var preservedRuns: seq<RunId>
    var actions: seq<RecoveryAction>

    constructor ()
      ensures deadlines == [] && preservedRuns == [] && actions == []
    {
      deadlines, preservedRuns, actions := [], [], [];
    }

    /** The plan has grown by one record's share, at the end of each list. */
    twostate predicate Took(share: Share)
      reads this
    {
      && deadlines == old(deadlines) + (if share.deadline.Some? then [share.deadline.value] else [])
      && preservedRuns == old(preservedRuns) + (if share.preserved.Some? then [share.preserved.value] else [])
      && actions == old(actions) + (if share.action.Some? then [share.action.value] else [])
    }

    method ReconcileActive(ctx: Context, record: RecoveryRecord)
      modifies this
      ensures Took(ActiveShare(ctx, record))
    {
      if record.activeRun.None? {
        actions := actions + [InterruptAction(record, None, FateUnknown)];
        return;
      }
      var run := record.activeRun.value;
      if run.state.IsTerminal() {
        actions := actions + [InterruptAction(record, None, FateUnknown)];
        return;
      }
      var commandFate := InspectFate(ctx, run.commandIdentity);
      var monitorAlive := false;
      if run.monitorIdentity.Some? && run.monitorIdentity.value.bootIdentity == ctx.boot {
        var status := ctx.inspector(run.monitorIdentity.value);
        monitorAlive := status == Some(Alive);
      }
      if monitorAlive && (run.state.RunRunning? || run.state.RunCancelRequested?) {
        preservedRuns := preservedRuns + [run.id];
        return;
      }
      actions := actions + [InterruptAction(record, Some((run.id, run.claimToken)), commandFate)];
    }

    /** On an error the plan may have grown; the caller throws it away. */
    method ReconcileWaiting(ctx: Context, record: RecoveryRecord) returns (r: Result<(), ReconciliationError>)
      modifies this
      ensures r.Ok? <==> WaitingShare(ctx, record).Ok?
      ensures r.Err? ==> WaitingShare(ctx, record) == Err(r.error)
      ensures r.Ok? ==> Took(WaitingShare(ctx, record).value)
    {
      var job := record.job;
      var due := job.nextDue;
      if due > ctx.wallNow {
        var d := DeadlineFor(ctx, job.id, due);
        if d.Err? { return Err(d.error); }
        deadlines := deadlines + [d.value];
        return Ok(());
      }
      if job.missedPolicy.RunLatest? {
        deadlines := deadlines + [RecoveredDeadline(job.id, due, ctx.elapsedNow)];
        if job.schedule.RecurringInterval? {
          var next := NextFixedRateUtc(job.schedule.anchor, ctx.wallNow, job.schedule.interval);
          if next.Err? { return Err(DeadlineOverflow); }
          actions := actions + [AdvanceRecurring(job.id, job.revision, next.value)];
        }
      } else if job.schedule.RecurringInterval? && job.missedPolicy.Skip? {
        var next := NextFixedRateUtc(job.schedule.anchor, ctx.wallNow, job.schedule.interval);
        if next.Err? { return Err(DeadlineOverflow); }
        actions := actions + [AdvanceRecurring(job.id, job.revision, next.value)];
        var d := DeadlineFor(ctx, job.id, next.value);
        if d.Err? { return Err(d.error); }
        deadlines := deadlines + [d.value];
      } else {
        actions := actions + [MarkMissed(job.id, job.revision)];
      }
      return Ok(());
    }
  }

  ghost predicate FailsFirst(ctx: Context, records: seq<RecoveryRecord>, k: nat, error: ReconciliationError) {
    && k < |records| && ShareOf(ctx, records[k]) == Err(error)
    && forall i | 0 <= i < k :: ShareOf(ctx, records[i]).Ok?
  }

  lemma NothingListed(ctx: Context, records: seq<RecoveryRecord>)
    ensures Listed(DeadlineIn(ctx), records[..0]) == [] && Listed(PreservedIn(ctx), records[..0]) == []
    ensures Listed(ActionIn(ctx), records[..0]) == []
  {}

  lemma ListedGrows(ctx: Context, records: seq<RecoveryRecord>, at: nat)
    requires at < |records|
    ensures var share := ShareOf(ctx, records[at]);
      share.Ok? ==>
        && Listed(DeadlineIn(ctx), records[..at + 1])
           == Listed(DeadlineIn(ctx), records[..at])
             + (if share.value.deadline.Some? then [share.value.deadline.value] else [])
        && Listed(PreservedIn(ctx), records[..at + 1])
           == Listed(PreservedIn(ctx), records[..at])
             + (if share.value.preserved.Some? then [share.value.preserved.value] else [])
        && Listed(ActionIn(ctx), records[..at + 1])
           == Listed(ActionIn(ctx), records[..at])
             + (if share.value.action.Some? then [share.value.action.value] else [])
  {
    hide ShareOf;
    assert records[..at + 1][..at] == records[..at];
  }

  /** Plans exactly when the boot identity is valid and every record has a share; otherwise it
      reports what was wrong with the first record that has none. */
  method PlanRecovery(records: seq<RecoveryRecord>, ctx: Context) returns (r: Result<RecoveryPlan, ReconciliationError>)
    ensures r.Ok? <==> ValidBoot(ctx.boot) && forall k | 0 <= k < |records| :: ShareOf(ctx, records[k]).Ok?
    ensures r.Ok? ==> IsPlan(ctx, records, r.value)
    ensures !ValidBoot(ctx.boot) ==> r == Err(InvalidBootIdentity)
    ensures r.Err? && ValidBoot(ctx.boot) ==> exists k :: FailsFirst(ctx, records, k, r.error)
  {
    hide WaitingShare, ActiveShare, Listed, InOrder;
    if ctx.boot == "" || '\0' in ctx.boot {
      return Err(InvalidBootIdentity);
    }
    var plan := new Planner();
    var at := 0;
    NothingListed(ctx, records);
    while at < |records|
      invariant 0 <= at <= |records|
      invariant forall k | 0 <= k < at :: ShareOf(ctx, records[k]).Ok?
      invariant plan.deadlines == Listed(DeadlineIn(ctx), records[..at])
      invariant plan.preservedRuns == Listed(PreservedIn(ctx), records[..at])
      invariant plan.actions == Listed(ActionIn(ctx), records[..at])
    {
      var record := records[at];
      ListedGrows(ctx, records, at);
      if record.job.state.IsTerminal() {
        assert FailsFirst(ctx, records, at, TerminalJobLoaded(record.job.id));
        return Err(TerminalJobLoaded(record.job.id));
      }
      if record.job.state.Starting? || record.job.state.Running? || record.job.state.CancelRequested? {
        plan.ReconcileActive(ctx, record);
      } else {
        if record.activeRun.Some? {
          assert FailsFirst(ctx, records, at, UnexpectedActiveRun(record.job.id));
          return Err(UnexpectedActiveRun(record.job.id));
        }
        var result := plan.ReconcileWaiting(ctx, record);
        if result.Err? {
          assert FailsFirst(ctx, records, at, result.error);
          return Err(result.error);
        }
      }
      at := at + 1;
    }
    assert records[..at] == records;
    OrdersAreTotal();
    SortSorts(DEADLINE_ORDER, plan.deadlines);
    SortSorts(RUN_ORDER, plan.preservedRuns);
    return Ok(RecoveryPlan(Sort(DEADLINE_ORDER, plan.deadlines), Sort(RUN_ORDER, plan.preservedRuns), plan.actions));
  }
}
