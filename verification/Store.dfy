/** The transactional store (`src/infrastructure/sqlite/job_store.rs`, `run_store.rs`). */
module Store {
  import opened Wrappers
  import opened Primitives
  import opened Transitions
  import opened Recurrence
  import opened Jobs
  import opened Runs

  datatype StoreError = AlreadyExists | NotFound | Conflict | Corrupt | Domain | DuplicateClaim | InvalidClaim

  datatype HistoryRow = HistoryRow(
    from: JobState, to: JobState, at: UtcTimestamp, actor: Actor, reason: string, revision: Counter)

  /** The three tables. The transition table is kept grouped by job. */
  datatype StoreState = StoreState(
    jobs: map<JobId, JobSnapshot>, history: map<JobId, seq<HistoryRow>>, runs: map<RunId, Run>)

  const EMPTY := StoreState(map[], map[], map[])

  function HistoryOf(s: StoreState, id: JobId): (r: seq<HistoryRow>) {
    if id in s.history then s.history[id] else []
  }

  // ----- jobs

  function LoadJob(s: StoreState, id: JobId): (r: Result<JobSnapshot, StoreError>) {
    if id !in s.jobs then Err(NotFound)
    else if !Rehydratable(s.jobs[id]) then Err(Corrupt)
    else Ok(s.jobs[id])
  }

  function JobCreated(s: StoreState, job: JobSnapshot): (r: (StoreState, Result<(), StoreError>)) {
    if job.revision > I64_MAX then (s, Err(Corrupt))
    else if job.id in s.jobs then (s, Err(AlreadyExists))
    else (s.(jobs := s.jobs[job.id := job]), Ok(()))
  }

  /** One commit: the job row and its history row change together. */
  function Commit(s: StoreState, before: JobSnapshot, after: JobSnapshot, actor: Actor, reason: string)
    : (r: StoreState)
  {
    var row := HistoryRow(before.state, after.state, after.updatedAt, actor, reason, after.revision);
    s.(jobs := s.jobs[before.id := after], history := s.history[before.id := HistoryOf(s, before.id) + [row]])
  }

  function Settle(s: StoreState, before: JobSnapshot, moved: Result<JobSnapshot, JobError>, actor: Actor,
                  reason: string)
    : (r: (StoreState, Result<JobSnapshot, StoreError>))
  {
    match moved
    case Err(_) => (s, Err(Domain))
    case Ok(after) =>
      if after.revision > I64_MAX then (s, Err(Corrupt))
      else (Commit(s, before, after, actor, reason), Ok(after))
  }

  function JobTransitioned(s: StoreState, id: JobId, expected: Counter, to: JobState, recurring: bool,
                         actor: Actor, reason: string, now: UtcTimestamp)
    : (r: (StoreState, Result<JobSnapshot, StoreError>))
  {
    match LoadJob(s, id)
    case Err(e) => (s, Err(e))
    case Ok(job) =>
      if job.revision != expected then (s, Err(Conflict))
      else Settle(s, job, Moved(job, to, recurring, actor, reason, now), actor, reason)
  }

  const ADVANCE_REASON := "next fixed-rate occurrence"

  function RecurringAdvanced(s: StoreState, id: JobId, expected: Counter, now: UtcTimestamp)
    : (r: (StoreState, Result<JobSnapshot, StoreError>))
  {
    match LoadJob(s, id)
    case Err(e) => (s, Err(e))
    case Ok(job) =>
      if job.revision != expected then (s, Err(Conflict))
      else Settle(s, job, Advanced(job, Monitor, ADVANCE_REASON, now), Monitor, ADVANCE_REASON)
  }

  // ----- runs

  function LoadRun(s: StoreState, id: RunId): (r: Result<Run, StoreError>) {
    if id !in s.runs then Err(NotFound)
    else if Rehydrate(s.runs[id]).Err? then Err(Corrupt)
    else Ok(s.runs[id])
  }

  function LoadClaimed(s: StoreState, id: RunId, token: ClaimToken): (r: Result<Run, StoreError>) {
    match LoadRun(s, id)
    case Err(e) => Err(e)
    case Ok(run) => if run.claimToken != token then Err(InvalidClaim) else Ok(run)
  }

  ghost predicate OccurrenceClaimed(runs: map<RunId, Run>, job: JobId, due: UtcTimestamp) {
    exists r :: r in runs && runs[r].jobId == job && runs[r].scheduledFor == due
  }

  ghost predicate IsLatest(runs: map<RunId, Run>, job: JobId, r: RunId) {
    && r in runs && runs[r].jobId == job
    && forall q :: q in runs && runs[q].jobId == job ==> runs[q].sequence <= runs[r].sequence
  }

  ghost function HighestSequence(runs: map<RunId, Run>, job: JobId): (r: int) {
    if exists r :: IsLatest(runs, job, r) then var r :| IsLatest(runs, job, r); runs[r].sequence else 0
  }

  /** The unique constraints the insert can hit: the row id, the token, and the missing job. */
  ghost predicate ClaimConstraint(s: StoreState, job: JobId, id: RunId, token: ClaimToken) {
    job !in s.jobs || id in s.runs || exists r :: r in s.runs && s.runs[r].claimToken == token
  }

  ghost function RunClaimed(s: StoreState, job: JobId, due: UtcTimestamp, createdAt: UtcTimestamp, id: RunId,
                            token: ClaimToken)
    : (r: (StoreState, Result<Run, StoreError>))
  {
    var sequence := HighestSequence(s.runs, job) + 1;
    if OccurrenceClaimed(s.runs, job, due) then (s, Err(DuplicateClaim))
    else if !(1 <= sequence <= I64_MAX) then (s, Err(Corrupt))
    else if ClaimConstraint(s, job, id, token) then (s, Err(DuplicateClaim))
    else
      var run := NewRun(id, job, sequence, due, createdAt, token);
      (s.(runs := s.runs[id := run]), Ok(run))
  }

  // Each run update reads the row first and then writes selected columns under a guard. The two
  // halves are separate statements, so another process can come between them.

  function WriteRunning(s: StoreState, computed: Run): (r: Option<StoreState>) {
    if computed.id in s.runs && s.runs[computed.id].state.RunStarting?
      && s.runs[computed.id].claimToken == computed.claimToken
    then
      Some(s.(runs := s.runs[computed.id := s.runs[computed.id].(
        startedAt := computed.startedAt, state := RunRunning,
        monitorIdentity := computed.monitorIdentity, commandIdentity := computed.commandIdentity,
        stdoutPath := computed.stdoutPath, stderrPath := computed.stderrPath)]))
    else None
  }

  function WriteTerminal(s: StoreState, computed: Run): (r: Option<StoreState>) {
    if computed.id in s.runs && !s.runs[computed.id].state.IsTerminal()
      && s.runs[computed.id].claimToken == computed.claimToken
    then
      Some(s.(runs := s.runs[computed.id := s.runs[computed.id].(
        finishedAt := computed.finishedAt, state := computed.state, outcome := computed.outcome)]))
    else None
  }

  function WriteRequested(s: StoreState, seen: Run): (r: Option<StoreState>) {
    if seen.id in s.runs && s.runs[seen.id].state == seen.state && s.runs[seen.id].claimToken == seen.claimToken
    then Some(s.(runs := s.runs[seen.id := s.runs[seen.id].(state := RunCancelRequested)]))
    else None
  }

  /** What the reading half of `record_run_terminal` decides: finish at once, or write this value. */
  datatype RecordPlan = AlreadyRecorded(run: Run) | WriteOutcome(run: Run) | Refuse(error: StoreError)

  function PlanTerminal(s: StoreState, id: RunId, token: ClaimToken, finishedAt: UtcTimestamp, outcome: RunOutcome)
    : (r: RecordPlan)
  {
    match LoadClaimed(s, id, token)
    case Err(e) => Refuse(e)
    case Ok(run) =>
      if run.state.IsTerminal() then
        if run.finishedAt == Some(finishedAt) && run.outcome == Some(outcome) then AlreadyRecorded(run)
          else Refuse(Conflict)
      else
        match WithOutcome(run, finishedAt, outcome)
        case Err(_) => Refuse(Domain)
        case Ok(completed) => WriteOutcome(completed)
  }

  datatype RequestPlan = AlreadyRequested(run: Run) | WriteRequest(seen: Run, requested: Run)
    | RefuseRequest(error: StoreError)

  /** The reading half of `request_run_cancellation`. A finished run is reported back as a success. */
  function PlanRequest(s: StoreState, id: RunId, token: ClaimToken): (r: RequestPlan) {
    match LoadClaimed(s, id, token)
    case Err(e) => RefuseRequest(e)
    case Ok(run) =>
      if run.state.RunCancelRequested? || run.state.IsTerminal() then AlreadyRequested(run)
      else
        match RequestCancellation(run)
        case Err(_) => RefuseRequest(Domain)
        case Ok(requested) => WriteRequest(run, requested)
  }

  // The two halves one after the other, with nobody in between.

  function RunMarked(s: StoreState, id: RunId, token: ClaimToken, startedAt: UtcTimestamp, monitor: ProcessIdentity,
                     command: ProcessIdentity, stdoutPath: string, stderrPath: string)
    : (r: (StoreState, Result<Run, StoreError>))
  {
    match LoadClaimed(s, id, token)
    case Err(e) => (s, Err(e))
    case Ok(run) =>
      match MarkRunning(run, startedAt, monitor, command, stdoutPath, stderrPath)
      case Err(_) => (s, Err(Domain))
      case Ok(running) =>
        match WriteRunning(s, running)
        case None => (s, Err(Conflict))
        case Some(after) => (after, Ok(running))
  }

  function RunRecorded(s: StoreState, id: RunId, token: ClaimToken, finishedAt: UtcTimestamp, outcome: RunOutcome)
    : (r: (StoreState, Result<Run, StoreError>))
  {
    match PlanTerminal(s, id, token, finishedAt, outcome)
    case Refuse(e) => (s, Err(e))
    case AlreadyRecorded(run) => (s, Ok(run))
    case WriteOutcome(completed) =>
      match WriteTerminal(s, completed)
      case None => (s, Err(Conflict))
      case Some(after) => (after, Ok(completed))
  }

  function RunRequested(s: StoreState, id: RunId, token: ClaimToken): (r: (StoreState, Result<Run, StoreError>)) {
    match PlanRequest(s, id, token)
    case RefuseRequest(e) => (s, Err(e))
    case AlreadyRequested(run) => (s, Ok(run))
    case WriteRequest(seen, requested) =>
      match WriteRequested(s, seen)
      case None => (s, Err(Conflict))
      case Some(after) => (after, Ok(requested))
  }

  // ----- exact answers

  /** The first of four answers: a missing row, a row that cannot be read, another claim's token, or
      the row as it is stored. */
  lemma LoadingIsExact(s: StoreState, id: RunId, token: ClaimToken)
    ensures LoadClaimed(s, id, token)
      == if id !in s.runs then Err(NotFound)
         else if !Readable(s.runs[id]) then Err(Corrupt)
         else if s.runs[id].claimToken != token then Err(InvalidClaim)
         else Ok(s.runs[id])
  {
    if id in s.runs { ReadingIsExact(s.runs[id]); }
    hide Rehydrate, Readable;
  }

  /** The stored row that a transition from revision `expected` finds: readable and not moved on. */
  predicate Expected(s: StoreState, id: JobId, expected: Counter) {
    && id in s.jobs && s.jobs[id].createdAt <= s.jobs[id].updatedAt
    && s.jobs[id].revision == expected < I64_MAX
  }

  predicate CanTransition(s: StoreState, id: JobId, expected: Counter, to: JobState, recurring: bool,
                          reason: string, now: UtcTimestamp)
  {
    Expected(s, id, expected) && CanMove(s.jobs[id], to, recurring, reason, now)
  }

  /** The job row replaced and its history row appended; nothing else. */
  function Committed(s: StoreState, after: JobSnapshot, from: JobState, actor: Actor, reason: string): (r: StoreState) {
    s.(jobs := s.jobs[after.id := after],
       history := s.history[after.id := HistoryOf(s, after.id)
                                       + [HistoryRow(from, after.state, after.updatedAt, actor, reason,
                                                     after.revision)]])
  }

  /** The exact answer to a transition, error by error. */
  lemma TransitionIsExact(s: StoreState, id: JobId, expected: Counter, to: JobState, recurring: bool,
                          actor: Actor, reason: string, now: UtcTimestamp)
    requires id in s.jobs ==> s.jobs[id].id == id
    ensures JobTransitioned(s, id, expected, to, recurring, actor, reason, now)
      == if id !in s.jobs then (s, Err(NotFound))
         else if s.jobs[id].updatedAt < s.jobs[id].createdAt then (s, Err(Corrupt))
         else if s.jobs[id].revision != expected then (s, Err(Conflict))
         else if !CanMove(s.jobs[id], to, recurring, reason, now) then (s, Err(Domain))
         else if expected >= I64_MAX then (s, Err(Corrupt))
         else
           var after := s.jobs[id].(revision := expected + 1, state := to, updatedAt := now);
           (Committed(s, after, s.jobs[id].state, actor, reason), Ok(after))
    ensures JobTransitioned(s, id, expected, to, recurring, actor, reason, now).1.Ok?
      <==> CanTransition(s, id, expected, to, recurring, reason, now)
  {
    if id in s.jobs { MoveIsExact(s.jobs[id], to, recurring, actor, reason, now); }
    hide Moved, CanMove;
  }

  /** A run with its outcome. */
  function Concluded(run: Run, finishedAt: UtcTimestamp, outcome: RunOutcome): (r: Run) {
    run.(state := OutcomeState(outcome), finishedAt := Some(finishedAt), outcome := Some(outcome))
  }

  /** Recording an outcome that is a legal end of the readable, unfinished row: only a time before the
      creation is refused. */
  lemma RecordingIsExact(s: StoreState, run: Run, finishedAt: UtcTimestamp, outcome: RunOutcome)
    requires LoadClaimed(s, run.id, run.claimToken) == Ok(run) && RunLegal(run.state, OutcomeState(outcome))
    ensures RunRecorded(s, run.id, run.claimToken, finishedAt, outcome)
         == if finishedAt < run.createdAt then (s, Err(Domain))
            else (s.(runs := s.runs[run.id := Concluded(run, finishedAt, outcome)]),
                  Ok(Concluded(run, finishedAt, outcome)))
  {
    OutcomeTableAgrees(run, finishedAt, outcome);
    ReadingIsExact(run);
    hide Rehydrate, WithOutcome, OutcomeState, ValidIdentity, ValidLogPath;
  }

  ghost predicate CanAdvanceJob(s: StoreState, id: JobId, expected: Counter, now: UtcTimestamp) {
    Expected(s, id, expected) && CanAdvance(s.jobs[id], ADVANCE_REASON, now)
  }

  lemma AdvancingIsExact(s: StoreState, id: JobId, expected: Counter, now: UtcTimestamp)
    requires id in s.jobs ==> s.jobs[id].id == id
    ensures var (after, r) := RecurringAdvanced(s, id, expected, now);
      && (r.Ok? <==> CanAdvanceJob(s, id, expected, now))
      && (r.Err? ==> after == s)
      && (r.Err? ==>
            r.error == if id !in s.jobs then NotFound
                       else if s.jobs[id].updatedAt < s.jobs[id].createdAt then Corrupt
                       else if s.jobs[id].revision != expected then Conflict
                       else if !CanAdvance(s.jobs[id], ADVANCE_REASON, now) then Domain
                       else Corrupt)
      && (r.Ok? ==>
            && r.value == s.jobs[id].(revision := expected + 1, state := Waiting, updatedAt := now,
                 nextDue := LeastOccurrence(s.jobs[id].schedule.anchor, now, s.jobs[id].schedule.interval))
            && after == Committed(s, r.value, s.jobs[id].state, Monitor, ADVANCE_REASON))
  {
    if id in s.jobs { AdvanceIsExact(s.jobs[id], Monitor, ADVANCE_REASON, now); }
    hide Advanced, CanAdvance, LeastOccurrence;
  }

  ghost predicate CanClaim(s: StoreState, job: JobId, due: UtcTimestamp, id: RunId, token: ClaimToken) {
    && job in s.jobs && id !in s.runs && (forall r :: r in s.runs ==> s.runs[r].claimToken != token)
    && (forall r :: r in s.runs && s.runs[r].jobId == job ==> s.runs[r].scheduledFor != due)
    && 0 <= HighestSequence(s.runs, job) < I64_MAX
  }

  lemma ClaimIsExact(s: StoreState, job: JobId, due: UtcTimestamp, createdAt: UtcTimestamp, id: RunId,
                     token: ClaimToken)
    ensures var (after, r) := RunClaimed(s, job, due, createdAt, id, token);
      && (r.Ok? <==> CanClaim(s, job, due, id, token))
      && (r.Err? ==> after == s)
      && (r.Ok? ==>
            && r.value == Run(id, job, HighestSequence(s.runs, job) + 1, due, createdAt, None, None, RunStarting, token,
                              None, None, None, None, None)
            && after == s.(runs := s.runs[id := r.value]))
  {
    hide HighestSequence;
  }

  /** What marking a run as running asks of the stored row and of the start's facts. */
  predicate CanMark(run: Run, startedAt: UtcTimestamp, monitor: ProcessIdentity, command: ProcessIdentity,
                    stdoutPath: string, stderrPath: string)
  {
    && run.state.RunStarting? && run.createdAt <= startedAt && ValidIdentity(monitor) && ValidIdentity(command)
    && ValidLogPath(stdoutPath) && ValidLogPath(stderrPath)
  }

  lemma MarkIsExact(run: Run, startedAt: UtcTimestamp, monitor: ProcessIdentity, command: ProcessIdentity,
                    stdoutPath: string, stderrPath: string)
    ensures var r := MarkRunning(run, startedAt, monitor, command, stdoutPath, stderrPath);
      && (r.Ok? <==> CanMark(run, startedAt, monitor, command, stdoutPath, stderrPath))
      && (r.Ok? ==> r.value == run.(state := RunRunning, startedAt := Some(startedAt), monitorIdentity := Some(monitor),
                      commandIdentity := Some(command), stdoutPath := Some(stdoutPath), stderrPath := Some(stderrPath)))
  {
    RunEdgesAreExact(run.state, RunRunning, Monitor, "command started");
    assert "command started" != "" && '\0' !in "command started";
    hide ValidLogPath, ValidIdentity, RunTransition;
  }

  // ----- the store object

  class JobStore {
    var jobs: map<JobId, JobSnapshot>
    var history: map<JobId, seq<HistoryRow>>
    var runs: map<RunId, Run>

    /** Every row is stored under its own id. */
    ghost predicate Valid()
      reads this
    {
      && (forall id :: id in jobs ==> jobs[id].id == id)
      && (forall id :: id in runs ==> runs[id].id == id)
    }

    constructor ()
      ensures Valid() && State() == EMPTY
    {
      jobs, history, runs := map[], map[], map[];
    }

    function State(): (r: StoreState)
      reads this
    {
      StoreState(jobs, history, runs)
    }

    method Create(job: Job) returns (r: Result<(), StoreError>)
      requires Valid()
      modifies this
      ensures Valid()
      ensures (State(), r) == JobCreated(old(State()), job.Snapshot())
      ensures r.Ok? <==> job.revision <= I64_MAX && job.id !in old(jobs)
      ensures r.Err? ==> r.error == if job.revision > I64_MAX then Corrupt else AlreadyExists
      ensures jobs == if r.Ok? then old(jobs)[job.id := job.Snapshot()] else old(jobs)
      ensures history == old(history) && runs == old(runs)
    {
      var snapshot := job.Snapshot();
      if snapshot.revision > I64_MAX {
        return Err(Corrupt);
      }
      if snapshot.id in jobs {
        return Err(AlreadyExists);
      }
      jobs := jobs[snapshot.id := snapshot];
      return Ok(());
    }

    method Load(id: JobId) returns (r: Result<Job, StoreError>)
      ensures r.Ok? <==> LoadJob(State(), id).Ok?
      ensures r.Ok? ==> fresh(r.value) && r.value.Snapshot() == jobs[id]
      ensures r.Err? ==> LoadJob(State(), id) == Err(r.error)
    {
      if id !in jobs {
        return Err(NotFound);
      }
      var job := Job.Rehydrate(jobs[id]);
      if job.Err? {
        return Err(Corrupt);
      }
      return Ok(job.value);
    }

    method TransitionJob(id: JobId, expected: Counter, to: JobState, recurring: bool, actor: Actor, reason: string,
                         now: UtcTimestamp)
      returns (r: Result<JobSnapshot, StoreError>)
      requires Valid()
      modifies this
      ensures Valid()
      ensures (State(), r) == JobTransitioned(old(State()), id, expected, to, recurring, actor, reason, now)
      ensures r.Ok? <==> CanTransition(old(State()), id, expected, to, recurring, reason, now)
      ensures r.Ok? ==> r.value == old(jobs)[id].(revision := expected + 1, state := to, updatedAt := now)
      ensures State() == if r.Err? then old(State())
        else Committed(old(State()), r.value, old(jobs)[id].state, actor, reason)
    {
      TransitionIsExact(State(), id, expected, to, recurring, actor, reason, now);
      hide Moved, JobTransitioned, CanMove, CanTransition, Committed;
      var loaded := Load(id);
      if loaded.Err? {
        return Err(loaded.error);
      }
      var job := loaded.value;
      if job.revision != expected {
        return Err(Conflict);
      }
      var transition := job.Transition(to, recurring, actor, reason, now);
      if transition.Err? {
        return Err(Domain);
      }
      if job.revision > I64_MAX {
        return Err(Corrupt);
      }
      SaveTransition(job.Snapshot(), transition.value);
      return Ok(job.Snapshot());
    }

    /** The two writes of one commit. */
    method SaveTransition(after: JobSnapshot, t: Transition<JobState>)
      modifies this`jobs, this`history
      ensures State() == Committed(old(State()), after, t.from, t.actor, t.reason)
    {
      jobs := jobs[after.id := after];
      var rows := if after.id in history then history[after.id] else [];
      history := history[after.id := rows
                                     + [HistoryRow(t.from, after.state, after.updatedAt, t.actor, t.reason,
                                                   after.revision)]];
    }

    method AdvanceRecurringJob(id: JobId, expected: Counter, now: UtcTimestamp)
      returns (r: Result<JobSnapshot, StoreError>)
      requires Valid()
      modifies this
      ensures Valid()
      ensures (State(), r) == RecurringAdvanced(old(State()), id, expected, now)
      ensures r.Ok? <==> CanAdvanceJob(old(State()), id, expected, now)
      ensures r.Ok? ==>
        r.value == old(jobs)[id].(revision := expected + 1, state := Waiting, updatedAt := now,
          nextDue := LeastOccurrence(old(jobs)[id].schedule.anchor, now, old(jobs)[id].schedule.interval))
      ensures State() == if r.Err? then old(State())
                         else Committed(old(State()), r.value, old(jobs)[id].state, Monitor, ADVANCE_REASON)
    {
      AdvancingIsExact(State(), id, expected, now);
      hide Advanced, RecurringAdvanced, CanAdvance, LeastOccurrence, Committed;
      var loaded := Load(id);
      if loaded.Err? {
        return Err(loaded.error);
      }
      var job := loaded.value;
      if job.revision != expected {
        return Err(Conflict);
      }
      var transition := job.AdvanceRecurring(Monitor, ADVANCE_REASON, now);
      if transition.Err? {
        return Err(Domain);
      }
      if job.revision > I64_MAX {
        return Err(Corrupt);
      }
      SaveTransition(job.Snapshot(), transition.value);
      return Ok(job.Snapshot());
    }

    /** Walks the run table once, as the two queries of the claim do. */
    method ScanRuns(job: JobId, due: UtcTimestamp) returns (duplicate: bool, highest: int)
      ensures duplicate <==> OccurrenceClaimed(runs, job, due)
      ensures highest == HighestSequence(runs, job)
    {
      duplicate, highest := false, 0;
      var rest := runs.Keys;
      ghost var best: RunId := 0;
      while rest != {}
        invariant rest <= runs.Keys
        invariant duplicate <==> exists r ::
          r in runs && r !in rest && runs[r].jobId == job && runs[r].scheduledFor == due
        invariant forall r :: r in runs && r !in rest && runs[r].jobId == job ==> runs[r].sequence <= highest
        invariant 0 <= highest
        invariant highest > 0 ==>
          best in runs && best !in rest && runs[best].jobId == job && runs[best].sequence == highest
        decreases |rest|
      {
        var r :| r in rest;
        rest := rest - {r};
        if runs[r].jobId == job {
          if runs[r].scheduledFor == due { duplicate := true; }
          if runs[r].sequence > highest { highest := runs[r].sequence; best := r; }
        }
      }
      assert highest > 0 ==> IsLatest(runs, job, best);
    }

    method TokenTaken(token: ClaimToken) returns (taken: bool)
      ensures taken <==> exists r :: r in runs && runs[r].claimToken == token
    {
      taken := false;
      var rest := runs.Keys;
      while rest != {} && !taken
        invariant rest <= runs.Keys
        invariant taken <==> exists r :: r in runs && r !in rest && runs[r].claimToken == token
        decreases |rest|
      {
        var r :| r in rest;
        rest := rest - {r};
        taken := runs[r].claimToken == token;
      }
    }

    /** The fresh row id and the random token are inputs. */
    method ClaimRun(job: JobId, due: UtcTimestamp, createdAt: UtcTimestamp, id: RunId, token: ClaimToken)
      returns (r: Result<Run, StoreError>)
      requires Valid()
      modifies this`runs
      ensures Valid()
      ensures (State(), r) == RunClaimed(old(State()), job, due, createdAt, id, token)
      ensures r.Ok? <==> CanClaim(old(State()), job, due, id, token)
      ensures r.Ok? ==>
        r.value == Run(id, job, HighestSequence(old(runs), job) + 1, due, createdAt, None, None, RunStarting, token,
                       None, None, None, None, None)
      ensures runs == if r.Ok? then old(runs)[id := r.value] else old(runs)
    {
      ClaimIsExact(State(), job, due, createdAt, id, token);
      hide CanClaim;
      var duplicate, highest := ScanRuns(job, due);
      if duplicate {
        return Err(DuplicateClaim);
      }
      if !(1 <= highest + 1 <= I64_MAX) {
        return Err(Corrupt);
      }
      var taken := TokenTaken(token);
      if job !in jobs || id in runs || taken {
        return Err(DuplicateClaim);
      }
      var run := NewRun(id, job, highest + 1, due, createdAt, token);
      runs := runs[id := run];
      return Ok(run);
    }

    /** With no other process in between, the guarded write always goes through and stores exactly
        the value the reading half computed. */
    method MarkRunRunning(id: RunId, token: ClaimToken, startedAt: UtcTimestamp, monitor: ProcessIdentity,
                          command: ProcessIdentity, stdoutPath: string, stderrPath: string)
      returns (r: Result<Run, StoreError>)
      requires Valid()
      modifies this`runs
      ensures Valid()
      ensures (State(), r) == RunMarked(old(State()), id, token, startedAt, monitor, command, stdoutPath, stderrPath)
      ensures r.Err? ==> State() == old(State()) && r.error != Conflict
      ensures r.Ok? <==> LoadClaimed(old(State()), id, token).Ok?
                         && CanMark(old(runs)[id], startedAt, monitor, command, stdoutPath, stderrPath)
      ensures r.Ok? ==> r.value == old(runs)[id].(
        state := RunRunning, startedAt := Some(startedAt), monitorIdentity := Some(monitor),
        commandIdentity := Some(command), stdoutPath := Some(stdoutPath), stderrPath := Some(stderrPath))
      ensures r.Ok? ==> runs == old(runs)[id := r.value]
    {
      if id in runs { MarkIsExact(runs[id], startedAt, monitor, command, stdoutPath, stderrPath); }
      hide MarkRunning, CanMark;
      var loaded := LoadClaimed(State(), id, token);
      if loaded.Err? {
        return Err(loaded.error);
      }
      var running := MarkRunning(loaded.value, startedAt, monitor, command, stdoutPath, stderrPath);
      if running.Err? {
        return Err(Domain);
      }
      var written := WriteRunning(State(), running.value);
      if written.None? {
        return Err(Conflict);
      }
      runs := written.value.runs;
      return Ok(running.value);
    }

    method RecordRunTerminal(id: RunId, token: ClaimToken, finishedAt: UtcTimestamp, outcome: RunOutcome)
      returns (r: Result<Run, StoreError>)
      requires Valid()
      modifies this`runs
      ensures Valid()
      ensures (State(), r) == RunRecorded(old(State()), id, token, finishedAt, outcome)
      ensures r.Err? ==> State() == old(State())
      ensures r.Ok? ==> r.value.finishedAt == Some(finishedAt) && r.value.outcome == Some(outcome)
                        && r.value.state == OutcomeState(outcome) && runs == old(runs)[id := r.value]
      ensures id in old(runs) && old(runs)[id].state.IsTerminal() ==> State() == old(State())
      ensures LoadClaimed(old(State()), id, token).Ok? && !old(runs)[id].state.IsTerminal() ==>
        (r.Ok? <==> WithOutcome(old(runs)[id], finishedAt, outcome).Ok?)
      ensures LoadClaimed(old(State()), id, token).Ok? && old(runs)[id].state.IsTerminal() ==>
        (r.Ok? <==> old(runs)[id].finishedAt == Some(finishedAt) && old(runs)[id].outcome == Some(outcome))
    {
      match PlanTerminal(State(), id, token, finishedAt, outcome)
      case Refuse(e) => return Err(e);
      case AlreadyRecorded(run) =>
        assert runs == runs[id := run];
        return Ok(run);
      case WriteOutcome(completed) =>
        var written := WriteTerminal(State(), completed);
        if written.None? {
          return Err(Conflict);
        }
        runs := written.value.runs;
        return Ok(completed);
    }

    method RequestRunCancellation(id: RunId, token: ClaimToken) returns (r: Result<Run, StoreError>)
      requires Valid()
      modifies this`runs
      ensures Valid()
      ensures (State(), r) == RunRequested(old(State()), id, token)
      ensures r.Err? ==> State() == old(State()) && r.error != Conflict
      ensures r.Ok? <==> LoadClaimed(old(State()), id, token).Ok?
      ensures r.Ok? ==> runs == old(runs)[id := r.value]
      ensures r.Ok? ==> if old(runs)[id].state.IsTerminal() then r.value == old(runs)[id]
                        else r.value == old(runs)[id].(state := RunCancelRequested)
    {
      match PlanRequest(State(), id, token)
      case RefuseRequest(e) => return Err(e);
      case AlreadyRequested(run) =>
        assert runs == runs[id := run];
        return Ok(run);
      case WriteRequest(seen, requested) =>
        var written := WriteRequested(State(), seen);
        if written.None? {
          return Err(Conflict);
        }
        runs := written.value.runs;
        return Ok(requested);
    }
  }
}
