/** What a recovery plan guarantees, whatever order the records came in. */
module RecoveryLaws {
  import opened Wrappers
  import opened Primitives
  import opened Transitions
  import opened Recurrence
  import opened Jobs
  import opened Runs
  import opened Sorting
  import opened Deadlines
  import opened Heap
  import opened Recovery
  import EventLoop

  // ----- one record

  predicate Overdue(ctx: Context, job: JobSnapshot) {
    job.nextDue <= ctx.wallNow
  }

  predicate MonitorLives(ctx: Context, run: Run) {
    run.monitorIdentity.Some? && run.monitorIdentity.value.bootIdentity == ctx.boot
    && ctx.inspector(run.monitorIdentity.value) == Some(Alive)
  }

  /** The run goes on undisturbed: its monitor was seen alive in this boot and the run had started. */
  predicate KeepsRun(ctx: Context, record: RecoveryRecord) {
    && IsActive(record.job.state) && record.activeRun.Some?
    && (record.activeRun.value.state.RunRunning? || record.activeRun.value.state.RunCancelRequested?)
    && MonitorLives(ctx, record.activeRun.value)
  }

  /** A waiting job that is overdue and whose policy does not let it catch up. */
  predicate Misses(ctx: Context, record: RecoveryRecord) {
    && !IsActive(record.job.state) && Overdue(ctx, record.job)
    && (record.job.missedPolicy.Hold? || (record.job.missedPolicy.Skip? && !record.job.schedule.RecurringInterval?))
  }

  predicate CatchesUp(ctx: Context, record: RecoveryRecord) {
    && !IsActive(record.job.state) && Overdue(ctx, record.job)
    && record.job.schedule.RecurringInterval? && !record.job.missedPolicy.Hold?
  }

  /** The time the recovered deadline stands for. */
  ghost function PlannedFor(ctx: Context, job: JobSnapshot): (r: int) {
    if Overdue(ctx, job) && job.missedPolicy.Skip? && job.schedule.RecurringInterval?
    then LeastOccurrence(job.schedule.anchor, ctx.wallNow, job.schedule.interval)
    else job.nextDue
  }

  predicate HasUnfinishedRun(record: RecoveryRecord) {
    record.activeRun.Some? && !record.activeRun.value.state.IsTerminal()
  }

  /** An interruption names the unfinished run, and its command counts as alive only when it was seen
      alive in this boot. */
  predicate InterruptTellsRun(ctx: Context, record: RecoveryRecord, run: Option<(RunId, ClaimToken)>,
                              fate: CommandFate)
  {
    if HasUnfinishedRun(record) then
      var command := record.activeRun.value.commandIdentity;
      && run == Some((record.activeRun.value.id, record.activeRun.value.claimToken))
      && (fate.FateAlive?
          <==> command.Some? && command.value.bootIdentity == ctx.boot && ctx.inspector(command.value) == Some(Alive))
      && (fate.FateDead?
          <==> command.Some? && command.value.bootIdentity == ctx.boot && ctx.inspector(command.value) == Some(Dead))
      && (fate.FateUnknown?
          <==> command.None? || (command.value.bootIdentity == ctx.boot && ctx.inspector(command.value) == None))
    else run == None && fate.FateUnknown?
  }

  /** The share, told without the planner: what each record gets and with which contents. */
  ghost predicate FairShare(ctx: Context, record: RecoveryRecord, share: Share) {
    var job := record.job;
    && share.preserved == (if KeepsRun(ctx, record) then Some(record.activeRun.value.id) else None)
    && (share.deadline.Some? <==> !IsActive(job.state) && !Misses(ctx, record))
    && (share.deadline.Some? ==>
          && share.deadline.value.jobId == job.id
          && share.deadline.value.scheduledFor == PlannedFor(ctx, job)
          && share.deadline.value.elapsedDue == ctx.elapsedNow + Max(0, share.deadline.value.scheduledFor - ctx.wallNow)
          && EventLoop.ReconcileWallSchedule(ctx.wallNow, ctx.elapsedNow, share.deadline.value.scheduledFor)
             == Ok(share.deadline.value.elapsedDue))
    && (share.action.Some?
        <==> (IsActive(job.state) && !KeepsRun(ctx, record)) || Misses(ctx, record) || CatchesUp(ctx, record))
    && (share.action.Some? ==>
        share.action.value.jobId == job.id && share.action.value.expectedRevision == job.revision)
    && (share.action.Some? && share.action.value.Interrupt? <==> IsActive(job.state) && !KeepsRun(ctx, record))
    && (share.action.Some? && share.action.value.Interrupt? ==>
          InterruptTellsRun(ctx, record, share.action.value.run, share.action.value.fate))
    && (share.action.Some? && share.action.value.MarkMissed? <==> Misses(ctx, record))
    && (share.action.Some? && share.action.value.AdvanceRecurring? ==>
          share.action.value.nextDue == LeastOccurrence(job.schedule.anchor, ctx.wallNow, job.schedule.interval))
  }

  /** The condition under which a record cannot be planned, and why. */
  ghost predicate Overflows(ctx: Context, job: JobSnapshot) {
    || EventLoop.ReconcileWallSchedule(ctx.wallNow, ctx.elapsedNow, job.nextDue).Err?
    || (Overdue(ctx, job) && job.schedule.RecurringInterval? && !job.missedPolicy.Hold?
        && (LeastOccurrence(job.schedule.anchor, ctx.wallNow, job.schedule.interval) > MAX_TIMESTAMP
            || (job.missedPolicy.Skip? && EventLoop.ReconcileWallSchedule(ctx.wallNow, ctx.elapsedNow,
                  LeastOccurrence(job.schedule.anchor, ctx.wallNow, job.schedule.interval)).Err?)))
  }

  lemma {:induction false} ShareIsFair(ctx: Context, record: RecoveryRecord)
    ensures ShareOf(ctx, record).Ok? ==> FairShare(ctx, record, ShareOf(ctx, record).value)
    ensures ShareOf(ctx, record) == Err(TerminalJobLoaded(record.job.id)) <==> record.job.state.IsTerminal()
    ensures ShareOf(ctx, record) == Err(UnexpectedActiveRun(record.job.id))
       <==> Awaits(record.job.state) && record.activeRun.Some?
    ensures ShareOf(ctx, record) == Err(DeadlineOverflow)
       <==> Awaits(record.job.state) && record.activeRun.None? && Overflows(ctx, record.job)
  {
    var job := record.job;
    if job.schedule.RecurringInterval? {
      OnlyTheFinalConversionFails(job.schedule.anchor, ctx.wallNow, job.schedule.interval);
      LeastOccurrenceIsLeast(job.schedule.anchor, ctx.wallNow, job.schedule.interval);
    }
    hide NextFixedRateUtc, LeastOccurrence, OnGrid;
  }

  // ----- the whole plan

  ghost predicate DistinctJobs(records: seq<RecoveryRecord>) {
    forall i, j | 0 <= i < j < |records| :: records[i].job.id != records[j].job.id
  }

  ghost predicate DeadlinesDiffer(ds: seq<RecoveredDeadline>) {
    forall i, j | 0 <= i < j < |ds| :: ds[i].jobId != ds[j].jobId
  }

  ghost predicate ActionsDiffer(acts: seq<RecoveryAction>) {
    forall i, j | 0 <= i < j < |acts| :: acts[i].jobId != acts[j].jobId
  }

  lemma {:induction false} DeadlineNamesJob(ctx: Context, record: RecoveryRecord)
    ensures DeadlineIn(ctx)(record).Some? ==> DeadlineIn(ctx)(record).value.jobId == record.job.id
    ensures ActionIn(ctx)(record).Some? ==> ActionIn(ctx)(record).value.jobId == record.job.id
  {}

  /** Jobs that are distinct in the records stay distinct in the plan's deadlines. */
  lemma {:induction false} ListedJobsDiffer(ctx: Context, records: seq<RecoveryRecord>)
    requires DistinctJobs(records)
    ensures DeadlinesDiffer(Listed(DeadlineIn(ctx), records)) && ActionsDiffer(Listed(ActionIn(ctx), records))
  {
    if records != [] {
      var init, last := records[..|records| - 1], records[|records| - 1];
      ListedJobsDiffer(ctx, init);
      forall k | 0 <= k < |init| ensures init[k].job.id != last.job.id { assert init[k] == records[k]; }
      DeadlineNamesJob(ctx, last);
      NewcomerDiffers(ctx, init, last);
      hide ShareOf;
    }
  }

  lemma {:induction false} NewcomerDiffers(ctx: Context, init: seq<RecoveryRecord>, last: RecoveryRecord)
    requires forall k | 0 <= k < |init| :: init[k].job.id != last.job.id
    ensures forall d | d in Listed(DeadlineIn(ctx), init) :: d.jobId != last.job.id
    ensures forall a | a in Listed(ActionIn(ctx), init) :: a.jobId != last.job.id
  {
    ListedHolds(DeadlineIn(ctx), init);
    ListedHolds(ActionIn(ctx), init);
    forall d | d in Listed(DeadlineIn(ctx), init) ensures d.jobId != last.job.id {
      var k :| 0 <= k < |init| && DeadlineIn(ctx)(init[k]) == Some(d);
      DeadlineNamesJob(ctx, init[k]);
    }
    forall a | a in Listed(ActionIn(ctx), init) ensures a.jobId != last.job.id {
      var k :| 0 <= k < |init| && ActionIn(ctx)(init[k]) == Some(a);
      DeadlineNamesJob(ctx, init[k]);
    }
  }

  lemma {:induction false} PlannedJobsDiffer(ctx: Context, records: seq<RecoveryRecord>, plan: RecoveryPlan)
    requires IsPlan(ctx, records, plan) && DistinctJobs(records)
    ensures DeadlinesDiffer(plan.deadlines) && ActionsDiffer(plan.actions)
  {
    ListedJobsDiffer(ctx, records);
    SortingKeepsDifferent(Listed(DeadlineIn(ctx), records), plan.deadlines);
  }

  lemma {:induction false} SortingKeepsDifferent(ds: seq<RecoveredDeadline>, sorted: seq<RecoveredDeadline>)
    requires DeadlinesDiffer(ds) && multiset(ds) == multiset(sorted)
    ensures DeadlinesDiffer(sorted)
  {
    DistinctMeansOnce(ds);
    DistinctMeansOnce(sorted);
    SameMembers(ds, sorted);
    assert forall x | x in sorted :: x in ds && multiset(ds)[x] == 1;
    forall i, j | 0 <= i < j < |sorted| ensures sorted[i].jobId != sorted[j].jobId {
      assert sorted[i] in ds && sorted[j] in ds && sorted[i] != sorted[j];
      SameJobSameDeadline(ds, sorted[i], sorted[j]);
    }
  }

  lemma {:induction false} SameJobSameDeadline(ds: seq<RecoveredDeadline>, x: RecoveredDeadline, y: RecoveredDeadline)
    requires DeadlinesDiffer(ds) && x in ds && y in ds
    ensures x.jobId == y.jobId ==> x == y
  {
    var i :| 0 <= i < |ds| && ds[i] == x;
    var j :| 0 <= j < |ds| && ds[j] == y;
  }

  lemma {:induction false} SameMembers<T(!new)>(a: seq<T>, b: seq<T>)
    requires multiset(a) == multiset(b)
    ensures forall x :: x in a <==> x in b
  {
    forall x ensures x in a <==> x in b {
      assert x in a <==> x in multiset(a);
      assert x in b <==> x in multiset(b);
    }
  }

  /** Record order does not matter: from the same records in any order come the same deadlines and
      the same preserved runs in the same order, and the same actions up to order; and if one order
      can be planned, every order can. */
  lemma {:induction false} PlanIgnoresRecordOrder(ctx: Context, records: seq<RecoveryRecord>,
                                                  shuffled: seq<RecoveryRecord>,
                               plan: RecoveryPlan, other: RecoveryPlan)
    requires multiset(records) == multiset(shuffled) && DistinctJobs(records)
    requires IsPlan(ctx, records, plan) && IsPlan(ctx, shuffled, other)
    ensures plan.deadlines == other.deadlines && plan.preservedRuns == other.preservedRuns
    ensures multiset(plan.actions) == multiset(other.actions)
  {
    ListedPermutes(DeadlineIn(ctx), records, shuffled);
    ListedPermutes(PreservedIn(ctx), records, shuffled);
    ListedPermutes(ActionIn(ctx), records, shuffled);
    PlannedJobsDiffer(ctx, records, plan);
    forall x, y | x in plan.deadlines && y in plan.deadlines && DEADLINE_ORDER(x, y) && DEADLINE_ORDER(y, x)
      ensures x == y
    {
      SameJobSameDeadline(plan.deadlines, x, y);
    }
    SortedIsUnique(DEADLINE_ORDER, plan.deadlines, other.deadlines);
    SortedIsUnique(RUN_ORDER, plan.preservedRuns, other.preservedRuns);
  }

  lemma {:induction false} PlanningIgnoresRecordOrder(ctx: Context, records: seq<RecoveryRecord>,
                                                      shuffled: seq<RecoveryRecord>)
    requires multiset(records) == multiset(shuffled)
    ensures (forall k | 0 <= k < |records| :: ShareOf(ctx, records[k]).Ok?)
       <==> (forall k | 0 <= k < |shuffled| :: ShareOf(ctx, shuffled[k]).Ok?)
  {
    SameMembers(records, shuffled);
    hide ShareOf;
    if forall k | 0 <= k < |records| :: ShareOf(ctx, records[k]).Ok? {
      forall k | 0 <= k < |shuffled| ensures ShareOf(ctx, shuffled[k]).Ok? { assert shuffled[k] in records; }
    }
    if forall k | 0 <= k < |shuffled| :: ShareOf(ctx, shuffled[k]).Ok? {
      forall k | 0 <= k < |records| ensures ShareOf(ctx, records[k]).Ok? { assert records[k] in shuffled; }
    }
  }

  // ----- every record once

  /** Interruptions and missed marks: the actions that settle a record. */
  function Settling(actions: seq<RecoveryAction>): (r: nat) {
    if actions == [] then 0
    else Settling(actions[..|actions| - 1]) + (if actions[|actions| - 1].AdvanceRecurring? then 0 else 1)
  }

  lemma {:induction false} SettlingGrows(actions: seq<RecoveryAction>, action: RecoveryAction)
    ensures Settling(actions + [action]) == Settling(actions) + (if action.AdvanceRecurring? then 0 else 1)
  {
    assert (actions + [action])[..|actions|] == actions;
  }

  lemma {:induction false} OneOfThree(ctx: Context, record: RecoveryRecord)
    requires ShareOf(ctx, record).Ok?
    ensures (if DeadlineIn(ctx)(record).Some? then 1 else 0) + (if PreservedIn(ctx)(record).Some? then 1 else 0)
            + (if ActionIn(ctx)(record).Some? && !ActionIn(ctx)(record).value.AdvanceRecurring? then 1 else 0) == 1
  {
    ShareIsFair(ctx, record);
  }

  lemma {:induction false} ListsAddUp(ctx: Context, records: seq<RecoveryRecord>)
    requires forall k | 0 <= k < |records| :: ShareOf(ctx, records[k]).Ok?
    ensures |Listed(DeadlineIn(ctx), records)| + |Listed(PreservedIn(ctx), records)|
      + Settling(Listed(ActionIn(ctx), records)) == |records|
  {
    if records != [] {
      var init, last := records[..|records| - 1], records[|records| - 1];
      ListsAddUp(ctx, init);
      OneOfThree(ctx, last);
      hide ShareOf;
      assert |Listed(DeadlineIn(ctx), records)|
        == |Listed(DeadlineIn(ctx), init)| + (if DeadlineIn(ctx)(last).Some? then 1 else 0);
      assert |Listed(PreservedIn(ctx), records)|
        == |Listed(PreservedIn(ctx), init)| + (if PreservedIn(ctx)(last).Some? then 1 else 0);
      if ActionIn(ctx)(last).Some? {
        SettlingGrows(Listed(ActionIn(ctx), init), ActionIn(ctx)(last).value);
        assert Listed(ActionIn(ctx), records) == Listed(ActionIn(ctx), init) + [ActionIn(ctx)(last).value];
      } else {
        assert Listed(ActionIn(ctx), records) == Listed(ActionIn(ctx), init);
      }
    }
  }

  /** Conservation: deadlines, preserved runs and settling actions together are exactly as many as
      the records. */
  lemma {:induction false} PlanAddsUp(ctx: Context, records: seq<RecoveryRecord>, plan: RecoveryPlan)
    requires IsPlan(ctx, records, plan)
    ensures |plan.deadlines| + |plan.preservedRuns| + Settling(plan.actions) == |records|
  {
    ListsAddUp(ctx, records);
    assert |multiset(plan.deadlines)| == |plan.deadlines| && |multiset(plan.preservedRuns)| == |plan.preservedRuns|;
    assert |multiset(Listed(DeadlineIn(ctx), records))| == |Listed(DeadlineIn(ctx), records)|;
    assert |multiset(Listed(PreservedIn(ctx), records))| == |Listed(PreservedIn(ctx), records)|;
  }

  /** `x` is the one element of `s` about job `id`. */
  ghost predicate OnlyDeadline(s: seq<RecoveredDeadline>, id: JobId, x: RecoveredDeadline) {
    x in s && x.jobId == id && forall i, j | 0 <= i < |s| && 0 <= j < |s| && s[i].jobId == id && s[j].jobId == id ::
      i == j
  }

  ghost predicate OnlyAction(s: seq<RecoveryAction>, id: JobId, x: RecoveryAction) {
    x in s && x.jobId == id && forall i, j | 0 <= i < |s| && 0 <= j < |s| && s[i].jobId == id && s[j].jobId == id ::
      i == j
  }

  /** The plan holds exactly this share about the record's job. */
  ghost predicate PlanHoldsShare(record: RecoveryRecord, plan: RecoveryPlan, share: Share) {
    var id := record.job.id;
    && (if share.deadline.Some? then OnlyDeadline(plan.deadlines, id, share.deadline.value)
        else forall d | d in plan.deadlines :: d.jobId != id)
    && (if share.action.Some? then OnlyAction(plan.actions, id, share.action.value)
        else forall a | a in plan.actions :: a.jobId != id)
    && (share.preserved.Some? ==> share.preserved.value in plan.preservedRuns)
  }

  /** Every record finds in the plan exactly its own fair share: an active job its preserved run or
      one interruption; a waiting job one deadline, with the advance it needs, or one missed mark. */
  lemma {:induction false} EveryRecordIsAccounted(ctx: Context, records: seq<RecoveryRecord>, plan: RecoveryPlan,
                                                  k: nat)
    requires IsPlan(ctx, records, plan) && DistinctJobs(records) && k < |records|
    ensures ShareOf(ctx, records[k]).Ok? && FairShare(ctx, records[k], ShareOf(ctx, records[k]).value)
    ensures PlanHoldsShare(records[k], plan, ShareOf(ctx, records[k]).value)
  {
    var record, id := records[k], records[k].job.id;
    ShareIsFair(ctx, record);
    PlannedJobsDiffer(ctx, records, plan);
    var ds, ps := Listed(DeadlineIn(ctx), records), Listed(PreservedIn(ctx), records);
    var acts := Listed(ActionIn(ctx), records);
    SameMembers(plan.deadlines, ds);
    SameMembers(plan.preservedRuns, ps);
    ListedHolds(DeadlineIn(ctx), records);
    ListedHolds(PreservedIn(ctx), records);
    ListedHolds(ActionIn(ctx), records);
    forall d | d in ds && d.jobId == id ensures DeadlineIn(ctx)(record) == Some(d) {
      var i :| 0 <= i < |records| && DeadlineIn(ctx)(records[i]) == Some(d);
      DeadlineNamesJob(ctx, records[i]);
      assert i == k;
    }
    forall a | a in acts && a.jobId == id ensures ActionIn(ctx)(record) == Some(a) {
      var i :| 0 <= i < |records| && ActionIn(ctx)(records[i]) == Some(a);
      DeadlineNamesJob(ctx, records[i]);
      assert i == k;
    }
    hide ShareOf, FairShare, Listed;
    var share := ShareOf(ctx, record).value;
    assert DeadlineIn(ctx)(record) == share.deadline && ActionIn(ctx)(record) == share.action
      && PreservedIn(ctx)(record) == share.preserved;
  }

  /** And nothing in the plan is about anything else. */
  lemma {:induction false} PlanHoldsNothingElse(ctx: Context, records: seq<RecoveryRecord>, plan: RecoveryPlan)
    requires IsPlan(ctx, records, plan)
    ensures forall d | d in plan.deadlines :: exists k :: 0 <= k < |records| && DeadlineIn(ctx)(records[k]) == Some(d)
    ensures forall r | r in plan.preservedRuns ::
      exists k :: 0 <= k < |records| && KeepsRun(ctx, records[k]) && records[k].activeRun.value.id == r
    ensures forall a | a in plan.actions :: exists k :: 0 <= k < |records| && ActionIn(ctx)(records[k]) == Some(a)
  {
    SameMembers(plan.deadlines, Listed(DeadlineIn(ctx), records));
    SameMembers(plan.preservedRuns, Listed(PreservedIn(ctx), records));
    ListedHolds(DeadlineIn(ctx), records);
    ListedHolds(PreservedIn(ctx), records);
    ListedHolds(ActionIn(ctx), records);
    forall r | r in plan.preservedRuns
      ensures exists k :: 0 <= k < |records| && KeepsRun(ctx, records[k]) && records[k].activeRun.value.id == r
    {
      var k :| 0 <= k < |records| && PreservedIn(ctx)(records[k]) == Some(r);
      ShareIsFair(ctx, records[k]);
    }
  }

  // ----- the rebuilt heap

  function JobsOf(ds: seq<RecoveredDeadline>): (r: seq<JobId>) {
    seq(|ds|, i requires 0 <= i < |ds| => ds[i].jobId)
  }

  /** The plain view of recovered deadlines; a later entry for the same job would win. */
  ghost function PendingOf(ds: seq<RecoveredDeadline>): (r: Pending) {
    if ds == [] then map[] else PendingOf(ds[..|ds| - 1])[ds[|ds| - 1].jobId := ds[|ds| - 1].elapsedDue]
  }

  method RebuildDeadlineHeap(plan: RecoveryPlan) returns (heap: DeadlineHeap)
    ensures heap.Valid() && fresh(heap) && heap.Contents() == PendingOf(plan.deadlines)
  {
    heap := new DeadlineHeap();
    var at := 0;
    while at < |plan.deadlines|
      invariant 0 <= at <= |plan.deadlines|
      invariant heap.Valid() && fresh(heap) && heap.Contents() == PendingOf(plan.deadlines[..at])
    {
      assert plan.deadlines[..at + 1][..at] == plan.deadlines[..at];
      heap.Upsert(plan.deadlines[at].jobId, plan.deadlines[at].elapsedDue);
      at := at + 1;
    }
    assert plan.deadlines[..at] == plan.deadlines;
  }

  /** The pending jobs are exactly those of the list, each with its own due time. */
  ghost predicate Holds(m: Pending, ds: seq<RecoveredDeadline>) {
    && (forall i | 0 <= i < |ds| :: ds[i].jobId in m && m[ds[i].jobId] == ds[i].elapsedDue)
    && (forall j :: j in m ==> exists i :: 0 <= i < |ds| && ds[i].jobId == j)
  }

  lemma {:induction false} PendingHolds(ds: seq<RecoveredDeadline>)
    requires DeadlinesDiffer(ds)
    ensures Holds(PendingOf(ds), ds)
  {
    if ds != [] {
      var init, last := ds[..|ds| - 1], ds[|ds| - 1];
      PendingHolds(init);
      forall i | 0 <= i < |ds| ensures ds[i].jobId in PendingOf(ds) && PendingOf(ds)[ds[i].jobId] == ds[i].elapsedDue {
        if i < |init| { assert init[i] == ds[i]; }
      }
      forall j | j in PendingOf(ds) ensures exists i :: 0 <= i < |ds| && ds[i].jobId == j {
        if j == last.jobId {
          assert ds[|ds| - 1].jobId == j;
        } else {
          assert j in PendingOf(init);
          var i :| 0 <= i < |init| && init[i].jobId == j;
          assert ds[i].jobId == j;
        }
      }
    }
  }

  /** At any moment the rebuilt heap owes exactly the front part of the plan that is due by then, in
      plan order; by the end of time it has drained the whole plan. */
  lemma {:induction false} HeapDrainsInPlanOrder(ctx: Context, records: seq<RecoveryRecord>, plan: RecoveryPlan,
                                                 now: ElapsedInstant, n: nat)
    requires IsPlan(ctx, records, plan) && DistinctJobs(records) && n <= |plan.deadlines|
    requires forall i | 0 <= i < |plan.deadlines| :: plan.deadlines[i].elapsedDue <= now <==> i < n
    ensures DueBatch(PendingOf(plan.deadlines), now) == JobsOf(plan.deadlines[..n])
    ensures DueBatch(PendingOf(plan.deadlines), U128_MAX) == JobsOf(plan.deadlines)
  {
    PlannedJobsDiffer(ctx, records, plan);
    FrontIsBatch(plan.deadlines, now, n);
    FrontIsBatch(plan.deadlines, U128_MAX, |plan.deadlines|);
    assert plan.deadlines[..|plan.deadlines|] == plan.deadlines;
  }

  lemma {:induction false} FrontHasTheDue(m: Pending, ds: seq<RecoveredDeadline>, now: ElapsedInstant, n: nat)
    requires Holds(m, ds) && n <= |ds| && forall i | 0 <= i < |ds| :: ds[i].elapsedDue <= now <==> i < n
    ensures forall j :: j in JobsOf(ds[..n]) <==> j in m && m[j] <= now
  {
    var batch := JobsOf(ds[..n]);
    assert |batch| == n && forall i | 0 <= i < n :: batch[i] == ds[i].jobId;
    hide JobsOf;
    forall j | j in batch ensures j in m && m[j] <= now {
      var i :| 0 <= i < |batch| && batch[i] == j;
      assert ds[i].jobId == j;
    }
    forall j | j in m && m[j] <= now ensures j in batch {
      var i :| 0 <= i < |ds| && ds[i].jobId == j;
      assert batch[i] == j;
    }
  }

  lemma {:induction false} FrontAscends(m: Pending, ds: seq<RecoveredDeadline>, n: nat)
    requires Holds(m, ds) && DeadlinesDiffer(ds) && InOrder(DEADLINE_ORDER, ds) && n <= |ds|
    ensures Ascending(m, JobsOf(ds[..n]))
  {
    var batch := JobsOf(ds[..n]);
    assert |batch| == n && forall i | 0 <= i < n :: batch[i] == ds[i].jobId;
    hide JobsOf;
    forall i, j | 0 <= i < j < n ensures Before(m, batch[i], batch[j]) {
      assert DEADLINE_ORDER(ds[i], ds[j]) && ds[i].jobId != ds[j].jobId;
    }
  }

  lemma {:induction false} FrontIsBatch(ds: seq<RecoveredDeadline>, now: ElapsedInstant, n: nat)
    requires DeadlinesDiffer(ds) && InOrder(DEADLINE_ORDER, ds) && n <= |ds|
    requires forall i | 0 <= i < |ds| :: ds[i].elapsedDue <= now <==> i < n
    ensures DueBatch(PendingOf(ds), now) == JobsOf(ds[..n])
  {
    var m := PendingOf(ds);
    PendingHolds(ds);
    hide DueBatch, PendingOf, JobsOf, Ascending;
    FrontHasTheDue(m, ds, now, n);
    FrontAscends(m, ds, n);
    BatchIsUnique(m, now, JobsOf(ds[..n]));
  }
}
