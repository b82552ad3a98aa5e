/** The job aggregate (`src/domain/job.rs`, `src/domain/schedule.rs`). */
module Jobs {
  import opened Wrappers
  import opened Primitives
  import opened Transitions
  import opened Recurrence

  datatype MissedPolicy = Hold | RunLatest | Skip

  datatype Schedule =
    | OneShotRelative(duration: DurationSeconds, persistedDue: UtcTimestamp)
    | OneShotAbsolute(originalInput: string, timezone: string, resolvedDue: UtcTimestamp)
    | RecurringInterval(interval: DurationSeconds, anchor: UtcTimestamp)
  {
    function NextDue(): (r: UtcTimestamp) {
      match this
      case OneShotRelative(_, due) => due
      case OneShotAbsolute(_, _, due) => due
      case RecurringInterval(_, anchor) => anchor
    }
  }

  datatype JobError =
    | RevisionOverflow
    | DeadlineNotFuture
    | BadTransition(cause: TransitionError)
    | BadDeadline(reason: DeadlineError)
    | NotRecurring
    | CorruptSnapshot
    | TimeMovedBackward

  datatype JobSnapshot = JobSnapshot(
    id: JobId, revision: Counter, createdAt: UtcTimestamp, updatedAt: UtcTimestamp,
    state: JobState, schedule: Schedule, missedPolicy: MissedPolicy, nextDue: UtcTimestamp)

  // ----- what one call does to the stored value

  function Moved(job: JobSnapshot, to: JobState, recurring: bool, actor: Actor, reason: string, now: UtcTimestamp)
    : (r: Result<JobSnapshot, JobError>)
  {
    if now < job.updatedAt then Err(TimeMovedBackward)
    else
      match JobTransition(job.state, to, recurring, actor, reason)
      case Err(e) => Err(BadTransition(e))
      case Ok(_) =>
        if job.revision == U64_MAX then Err(RevisionOverflow)
        else Ok(job.(revision := job.revision + 1, state := to, updatedAt := now))
  }

  function Advanced(job: JobSnapshot, actor: Actor, reason: string, now: UtcTimestamp)
    : (r: Result<JobSnapshot, JobError>)
  {
    if !job.schedule.RecurringInterval? then Err(NotRecurring)
    else
      match NextFixedRateUtc(job.schedule.anchor, now, job.schedule.interval)
      case Err(e) => Err(BadDeadline(e))
      case Ok(due) =>
        match Moved(job, Waiting, true, actor, reason, now)
        case Err(e) => Err(e)
        case Ok(moved) => Ok(moved.(nextDue := due))
  }

  /** A clock that has not gone back, an open edge, a usable reason and one more revision. */
  predicate CanMove(job: JobSnapshot, to: JobState, recurring: bool, reason: string, now: UtcTimestamp) {
    && job.updatedAt <= now && job.state in JobSources(to, recurring) && ValidReason(reason)
    && job.revision < U64_MAX
  }

  /** The exact answer to a move; and then these three fields change and no other. */
  lemma MoveIsExact(job: JobSnapshot, to: JobState, recurring: bool, actor: Actor, reason: string, now: UtcTimestamp)
    ensures var r := Moved(job, to, recurring, actor, reason, now);
      && (r.Ok? <==> CanMove(job, to, recurring, reason, now))
      && (r.Ok? ==> r.value == job.(revision := job.revision + 1, state := to, updatedAt := now))
  {
    JobEdgesAreExact(job.state, to, recurring, actor, reason);
    hide JobTransition, JobSources, ValidReason;
  }

  ghost predicate CanAdvance(job: JobSnapshot, reason: string, now: UtcTimestamp) {
    && job.schedule.RecurringInterval? && job.updatedAt <= now && ValidReason(reason) && job.revision < U64_MAX
    && job.state in {Scheduled, Starting, Running, Succeeded, Failed, Interrupted, Missed}
    && LeastOccurrence(job.schedule.anchor, now, job.schedule.interval) <= MAX_TIMESTAMP
  }

  /** The exact answer to an advance. Only a job that waits already, or that is to be or has been
      cancelled, has no way back to Waiting. */
  lemma AdvanceIsExact(job: JobSnapshot, actor: Actor, reason: string, now: UtcTimestamp)
    ensures var r := Advanced(job, actor, reason, now);
      && (r.Ok? <==> CanAdvance(job, reason, now))
      && (r.Ok? ==> r.value == job.(revision := job.revision + 1, state := Waiting, updatedAt := now,
                      nextDue := LeastOccurrence(job.schedule.anchor, now, job.schedule.interval)))
  {
    MoveIsExact(job, Waiting, true, actor, reason, now);
    if job.schedule.RecurringInterval? {
      OnlyTheFinalConversionFails(job.schedule.anchor, now, job.schedule.interval);
    }
    hide Moved, ValidReason, LeastOccurrence, NextFixedRateUtc;
  }

  predicate Rehydratable(snapshot: JobSnapshot) {
    snapshot.createdAt <= snapshot.updatedAt
  }

  predicate IsNewborn(job: JobSnapshot) {
    && job.revision == 1 && job.state == Scheduled
    && job.updatedAt == job.createdAt < job.nextDue == job.schedule.NextDue()
  }

  /** The mutable aggregate. Each method assigns the fields only after every check has passed. */
  class Job {
    const id: JobId
    const createdAt: UtcTimestamp
    const schedule: Schedule
    const missedPolicy: MissedPolicy
    var revision: Counter
    var updatedAt: UtcTimestamp
    var state: JobState
    var nextDue: UtcTimestamp

    constructor FromSnapshot(s: JobSnapshot)
      ensures Snapshot() == s
    {
      id, createdAt, schedule, missedPolicy := s.id, s.createdAt, s.schedule, s.missedPolicy;
      revision, updatedAt, state, nextDue := s.revision, s.updatedAt, s.state, s.nextDue;
    }

    static method New(id: JobId, now: UtcTimestamp, schedule: Schedule, missedPolicy: MissedPolicy)
      returns (r: Result<Job, JobError>)
      ensures r.Ok? <==> now < schedule.NextDue()
      ensures r.Err? ==> r.error == DeadlineNotFuture
      ensures r.Ok? ==> fresh(r.value) && IsNewborn(r.value.Snapshot())
      ensures r.Ok? ==> var s := r.value.Snapshot();
        s.id == id && s.createdAt == now && s.schedule == schedule && s.missedPolicy == missedPolicy
      ensures r.Ok? ==>
        r.value.nextDue == if schedule.OneShotRelative? then schedule.persistedDue
                           else if schedule.OneShotAbsolute? then schedule.resolvedDue
                           else schedule.anchor
    {
      var nextDue := schedule.NextDue();
      if nextDue <= now {
        return Err(DeadlineNotFuture);
      }
      var job := new Job.FromSnapshot(
        JobSnapshot(id, 1, now, now, Scheduled, schedule, missedPolicy, nextDue));
      return Ok(job);
    }

    function Snapshot(): (r: JobSnapshot)
      reads this
    {
      JobSnapshot(id, revision, createdAt, updatedAt, state, schedule, missedPolicy, nextDue)
    }

    static method Rehydrate(s: JobSnapshot) returns (r: Result<Job, JobError>)
      ensures r.Ok? <==> s.createdAt <= s.updatedAt
      ensures r.Err? ==> r.error == CorruptSnapshot
      ensures r.Ok? ==> fresh(r.value) && r.value.Snapshot() == s
    {
      if s.createdAt > s.updatedAt {
        return Err(CorruptSnapshot);
      }
      var job := new Job.FromSnapshot(s);
      return Ok(job);
    }

    /** Either the whole move happens, or the error is reported and no field has changed. */
    method Transition(to: JobState, recurring: bool, actor: Actor, reason: string, now: UtcTimestamp)
      returns (r: Result<Transition<JobState>, JobError>)
      modifies this
      ensures r.Ok? <==> CanMove(old(Snapshot()), to, recurring, reason, now)
      ensures r.Ok? ==>
        Snapshot() == old(Snapshot()).(revision := old(revision) + 1, state := to, updatedAt := now)
      ensures r.Ok? <==> Moved(old(Snapshot()), to, recurring, actor, reason, now).Ok?
      ensures r.Ok? ==> Moved(old(Snapshot()), to, recurring, actor, reason, now) == Ok(Snapshot())
      ensures r.Ok? ==> r.value == Transitions.Transition(old(state), to, actor, reason)
      ensures r.Err? ==> Snapshot() == old(Snapshot())
      ensures r.Err? ==> Moved(old(Snapshot()), to, recurring, actor, reason, now) == Err(r.error)
    {
      MoveIsExact(Snapshot(), to, recurring, actor, reason, now);
      hide JobTransition, JobSources, ValidReason;
      if now < updatedAt {
        return Err(TimeMovedBackward);
      }
      JobEdgesAreExact(state, to, recurring, actor, reason);
      var transition := JobTransition(state, to, recurring, actor, reason);
      if transition.Err? {
        return Err(BadTransition(transition.error));
      }
      if revision == U64_MAX {
        return Err(RevisionOverflow);
      }
      revision := revision + 1;
      state := to;
      updatedAt := now;
      return Ok(transition.value);
    }

    method AdvanceRecurring(actor: Actor, reason: string, now: UtcTimestamp)
      returns (r: Result<Transition<JobState>, JobError>)
      modifies this
      ensures r.Ok? <==> CanAdvance(old(Snapshot()), reason, now)
      ensures r.Ok? ==>
        Snapshot() == old(Snapshot()).(revision := old(revision) + 1, state := Waiting, updatedAt := now,
          nextDue := LeastOccurrence(schedule.anchor, now, schedule.interval))
      ensures r.Ok? <==> Advanced(old(Snapshot()), actor, reason, now).Ok?
      ensures r.Ok? ==> Advanced(old(Snapshot()), actor, reason, now) == Ok(Snapshot())
      ensures r.Ok? ==> r.value == Transitions.Transition(old(state), Waiting, actor, reason)
      ensures r.Err? ==> Snapshot() == old(Snapshot())
      ensures r.Err? ==> Advanced(old(Snapshot()), actor, reason, now) == Err(r.error)
    {
      AdvanceIsExact(Snapshot(), actor, reason, now);
      hide CanAdvance, JobSources, ValidReason, NextFixedRateUtc, LeastOccurrence;
      if !schedule.RecurringInterval? {
        return Err(NotRecurring);
      }
      var due := NextFixedRateUtc(schedule.anchor, now, schedule.interval);
      if due.Err? {
        return Err(BadDeadline(due.error));
      }
      r := Transition(Waiting, true, actor, reason, now);
      if r.Ok? {
        nextDue := due.value;
      }
    }
  }

  // ----- a job's whole life

  datatype JobCall =
    | CallTransition(to: JobState, recurring: bool, actor: Actor, reason: string, now: UtcTimestamp)
    | CallAdvance(actor: Actor, reason: string, now: UtcTimestamp)

  function AfterCall(job: JobSnapshot, call: JobCall): (r: JobSnapshot) {
    var r := match call
      case CallTransition(to, recurring, actor, reason, now) => Moved(job, to, recurring, actor, reason, now)
      case CallAdvance(actor, reason, now) => Advanced(job, actor, reason, now);
    match r
    case Ok(moved) => moved
    case Err(_) => job
  }

  function AfterCalls(job: JobSnapshot, calls: seq<JobCall>): (r: JobSnapshot)
    decreases |calls|
  {
    if calls == [] then job else AfterCalls(AfterCall(job, calls[0]), calls[1..])
  }

  /** The due time is what the recurrence rule gave at some moment of the job's life so far. */
  ghost predicate DueFollowsRule(job: JobSnapshot) {
    && job.schedule.RecurringInterval?
    && exists t: UtcTimestamp {:trigger NextFixedRateUtc(job.schedule.anchor, t, job.schedule.interval)} ::
        job.createdAt <= t <= job.updatedAt
        && NextFixedRateUtc(job.schedule.anchor, t, job.schedule.interval) == Ok(job.nextDue)
  }

  lemma NewbornFollowsRule(job: JobSnapshot)
    requires IsNewborn(job) && job.schedule.RecurringInterval?
    ensures DueFollowsRule(job)
  {
    assert NextFixedRateUtc(job.schedule.anchor, job.createdAt, job.schedule.interval) == Ok(job.nextDue);
  }

  /** One call, successful or not: the due time stays on the anchor's grid, never goes back, and a
      successful advance puts it strictly after the advance. A failed call changes nothing. */
  lemma CallKeepsRule(job: JobSnapshot, call: JobCall)
    requires DueFollowsRule(job)
    ensures var after := AfterCall(job, call);
      && DueFollowsRule(after)
      && OnGrid(after.schedule.anchor, after.schedule.interval, after.nextDue)
      && job.nextDue <= after.nextDue
      && (after.revision == job.revision ==> after == job)
      && (call.CallAdvance? && after.revision != job.revision ==> call.now == after.updatedAt < after.nextDue)
  {
    var after := AfterCall(job, call);
    var anchor, interval := job.schedule.anchor, job.schedule.interval;
    var t: UtcTimestamp :| job.createdAt <= t <= job.updatedAt
      && NextFixedRateUtc(anchor, t, interval) == Ok(job.nextDue);
    NextIsLeastAfterNow(anchor, t, interval, job.nextDue);
    if call.CallAdvance? && after.revision != job.revision {
      NextIsMonotone(anchor, t, call.now, interval);
      NextIsLeastAfterNow(anchor, call.now, interval, after.nextDue);
    } else {
      assert after.nextDue == job.nextDue;
    }
  }

  /** Over any sequence of calls on a recurring job. */
  lemma {:induction false} DueNeverGoesBack(job: JobSnapshot, calls: seq<JobCall>)
    requires DueFollowsRule(job)
    ensures DueFollowsRule(AfterCalls(job, calls))
    ensures job.nextDue <= AfterCalls(job, calls).nextDue
    ensures OnGrid(job.schedule.anchor, job.schedule.interval, AfterCalls(job, calls).nextDue)
    ensures AfterCalls(job, calls).schedule == job.schedule
    decreases |calls|
  {
    if calls == [] {
      var t: UtcTimestamp :| job.createdAt <= t <= job.updatedAt
        && NextFixedRateUtc(job.schedule.anchor, t, job.schedule.interval) == Ok(job.nextDue);
      NextIsLeastAfterNow(job.schedule.anchor, t, job.schedule.interval, job.nextDue);
    } else {
      CallKeepsRule(job, calls[0]);
      DueNeverGoesBack(AfterCall(job, calls[0]), calls[1..]);
    }
  }

  lemma {:induction false} CallsSplit(job: JobSnapshot, before: seq<JobCall>, after: seq<JobCall>)
    ensures AfterCalls(job, before + after) == AfterCalls(AfterCalls(job, before), after)
    decreases |before|
  {
    if before == [] {
      assert before + after == after;
    } else {
      assert (before + after)[1..] == before[1..] + after;
      CallsSplit(AfterCall(job, before[0]), before[1..], after);
    }
  }

  /** Whatever follows, the due time stays later than every advance that succeeded. */
  lemma DueExceedsEveryAdvance(job: JobSnapshot, calls: seq<JobCall>, k: nat)
    requires DueFollowsRule(job) && k < |calls| && calls[k].CallAdvance?
    requires AfterCall(AfterCalls(job, calls[..k]), calls[k]) != AfterCalls(job, calls[..k])
    ensures calls[k].now < AfterCalls(job, calls).nextDue
  {
    var mid := AfterCalls(job, calls[..k]);
    DueNeverGoesBack(job, calls[..k]);
    CallKeepsRule(mid, calls[k]);
    DueNeverGoesBack(AfterCall(mid, calls[k]), calls[k + 1..]);
    assert calls == calls[..k] + calls[k..];
    assert calls[k..][1..] == calls[k + 1..];
    CallsSplit(job, calls[..k], calls[k..]);
  }

  /** Call `k` is an advance that went through. */
  predicate AdvancesAt(job: JobSnapshot, calls: seq<JobCall>, k: nat)
    requires k < |calls|
  {
    calls[k].CallAdvance? && AfterCall(AfterCalls(job, calls[..k]), calls[k]) != AfterCalls(job, calls[..k])
  }

  /** The whole life of a recurring job, from its creation through any calls, failed or not: its due
      time stays on the grid of its anchor, never falls below the first one, and exceeds the time of
      every advance so far. */
  lemma RecurringJobStaysOnGrid(job: JobSnapshot, calls: seq<JobCall>)
    requires IsNewborn(job) && job.schedule.RecurringInterval?
    ensures var after := AfterCalls(job, calls);
      && after.schedule == job.schedule
      && OnGrid(job.schedule.anchor, job.schedule.interval, after.nextDue)
      && job.schedule.anchor <= after.nextDue
      && forall k | 0 <= k < |calls| && AdvancesAt(job, calls, k) :: calls[k].now < after.nextDue
  {
    NewbornFollowsRule(job);
    DueNeverGoesBack(job, calls);
    hide AfterCalls, AfterCall, DueFollowsRule, OnGrid;
    forall k | 0 <= k < |calls| && AdvancesAt(job, calls, k) ensures calls[k].now < AfterCalls(job, calls).nextDue {
      DueExceedsEveryAdvance(job, calls, k);
    }
  }
}
