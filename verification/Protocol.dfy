/** Supervisors, monitors and cancellers interleaving over one store.

    A client is a program counter together with the rows it read earlier, which may be stale. One
    step performs at most one store statement. Everything the outside world decides in a step (the
    clock, a fresh id, whether a spawn worked, how the command ended) comes from a `Choice`. A
    client may also stop at any moment, which covers crashes and every storage failure. */
module Protocol {
  import opened Wrappers
  import opened Primitives
  import opened Transitions
  import opened Jobs
  import opened Runs
  import opened Store
  import Group = GroupCancellation

  const CANCEL_ATTEMPTS: nat := 8

  datatype StartFacts = StartFacts(
    startedAt: UtcTimestamp, monitor: ProcessIdentity, command: ProcessIdentity, stdoutPath: string, stderrPath: string)

  function Started(run: Run, f: StartFacts): (r: Result<Run, RunError>) {
    MarkRunning(run, f.startedAt, f.monitor, f.command, f.stdoutPath, f.stderrPath)
  }

  datatype WaitStatus = WaitFailed | Ended(code: Option<int>, signal: Option<int>)

  /** `completion_outcome` (`src/run_monitor/lifecycle.rs`). */
  function CompletionOutcome(status: WaitStatus, captureFailed: bool, cancellationRequested: bool): (r: RunOutcome) {
    if captureFailed then RunOutcome.Failed("output capture failed")
    else
      match status
      case WaitFailed => RunOutcome.Interrupted("child wait failed")
      case Ended(code, signal) =>
        if code == Some(0) then Exited(0)
        else if cancellationRequested then RunOutcome.Cancelled("cancel request stopped command")
        else if code.Some? then Exited(code.value)
        else if signal.Some? then Signalled(signal.value)
        else RunOutcome.Interrupted("unknown child status")
  }

  /** Which outcome the end of a command calls for, read from the outcome's side. A command that exits
      with 0 has succeeded, even when its run was to be cancelled. */
  predicate CallsFor(status: WaitStatus, captureFailed: bool, requested: bool, outcome: RunOutcome) {
    && (outcome.Failed? <==> captureFailed)
    && (outcome.Failed? ==> outcome.message == "output capture failed")
    && (outcome == Exited(0) <==> !captureFailed && status.Ended? && status.code == Some(0))
    && (outcome.Cancelled? <==> !captureFailed && status.Ended? && status.code != Some(0) && requested)
    && (outcome.Cancelled? ==> outcome.message == "cancel request stopped command")
    && (outcome.Exited? && outcome.code != 0 ==> !requested && status.Ended? && status.code == Some(outcome.code))
    && (outcome.Signalled? ==>
        !requested && status.Ended? && status.code.None? && status.signal == Some(outcome.number))
    && (outcome.Interrupted? && status.WaitFailed? ==> outcome.message == "child wait failed")
    && (outcome.Interrupted? && status.Ended? ==>
        !requested && status == Ended(None, None) && outcome.message == "unknown child status")
  }

  /** There is exactly one such outcome, and it is the one recorded. */
  lemma OutcomeIsCalledFor(status: WaitStatus, captureFailed: bool, requested: bool, outcome: RunOutcome)
    ensures CallsFor(status, captureFailed, requested, outcome)
       <==> outcome == CompletionOutcome(status, captureFailed, requested)
  {}

  datatype Client =
    // `execute_single_due_job` (`src/supervisor/daemon.rs`)
    | DueLoad(id: JobId)
    | DueWaiting(job: JobSnapshot, now: UtcTimestamp)
    | DueStarting(job: JobSnapshot, now: UtcTimestamp)
    | DueClaim(job: JobSnapshot, now: UtcTimestamp)
    | DueRunning(job: JobSnapshot, run: Run, now: UtcTimestamp)
    | DueSpawn(job: JobSnapshot, run: Run)
    | DueFailRead(job: JobSnapshot, run: Run, finishedAt: UtcTimestamp)
    | DueFailWrite(job: JobSnapshot, run: Run, finishedAt: UtcTimestamp)
    | DueFailJob(job: JobSnapshot, finishedAt: UtcTimestamp)
    // `run_monitor_process`, `RunMonitor::execute` and `finish_job` (`src/run_monitor`)
    | MonLoadJob(id: JobId, runId: RunId)
    | MonLoadRun(job: JobSnapshot, runId: RunId)
    | MonCheck(job: JobSnapshot, run: Run)
    | MonPrepare(job: JobSnapshot, run: Run)
    | MonMarkRead(job: JobSnapshot, run: Run, facts: StartFacts)
    | MonMarkWrite(job: JobSnapshot, run: Run, facts: StartFacts)
    | MonWait(job: JobSnapshot, run: Run)
    | MonObserve(job: JobSnapshot, run: Run, finishedAt: UtcTimestamp, status: WaitStatus, captureFailed: bool)
    | MonRecordRead(job: JobSnapshot, run: Run, finishedAt: UtcTimestamp, outcome: RunOutcome)
    | MonRecordWrite(job: JobSnapshot, run: Run, finishedAt: UtcTimestamp, outcome: RunOutcome)
    | MonFinishLoad(job: JobSnapshot, runState: RunState)
    | MonFinishWrite(job: JobSnapshot, runState: RunState)
    // `cancel_job`, `cancel_active_run`, `finish_job_cancellation` (`src/cli/dispatch.rs`)
    | CanResolve(id: JobId)
    | CanActive(job: JobSnapshot)
    | CanRequest(job: JobSnapshot, active: Option<Run>, left: nat)
    | CanReload(job: JobSnapshot, active: Option<Run>, left: nat)
    | CanNoRun(job: JobSnapshot, now: UtcTimestamp)
    | CanRunLoad(job: JobSnapshot, run: Run)
    | CanCommitRead(job: JobSnapshot, run: Run)
    | CanCommitWrite(job: JobSnapshot, run: Run)
    // `cancel_validated_group` (`src/infrastructure/process/cancel.rs`), one answer of the system a step
    | CanSignal(job: JobSnapshot, run: Run)
    | CanTerm(job: JobSnapshot, run: Run)
    | CanGrace(job: JobSnapshot, run: Run, deadline: nat, look: nat)
    | CanLastLook(job: JobSnapshot, run: Run)
    | CanKill(job: JobSnapshot, run: Run)
    | CanRecordRead(job: JobSnapshot, run: Run)
    | CanRecordWrite(job: JobSnapshot, run: Run, finishedAt: UtcTimestamp)
    | CanPoll(job: JobSnapshot, runId: RunId)
    | CanFinishLoad(job: JobSnapshot, runState: RunState)
    | CanFinishWrite(job: JobSnapshot, target: JobState)

  datatype Choice = Choice(
    now: UtcTimestamp, ok: bool, runId: RunId, token: ClaimToken,
    facts: StartFacts, status: WaitStatus, captureFailed: bool, message: string,
    inspection: Group.Inspection, answer: Group.SignalAnswer, instant: nat, again: nat, grace: nat)

  /** A claimed occurrence and the job revision under which the supervisor claimed it. */
  datatype Claim = Claim(run: RunId, job: JobId, revision: Counter)

  /** A wait for the command of a run: what it reported, and whether the output was captured. */
  datatype Waited = Waited(run: RunId, status: WaitStatus, captureFailed: bool)

  /** What is on record about a wait: what it reported, and whether the cancellation of the run had
      been requested before. */
  datatype Report = Report(status: WaitStatus, captureFailed: bool, asked: bool)

  /** A signal that was delivered to the command group of a run: TERM, or KILL. */
  datatype Sent = Sent(run: RunId, kill: bool)

  /** The store after a step, where the program goes on, and what else the step did. */
  datatype Effect = Effect(
    store: StoreState, next: Option<Client>, spawned: Option<Client>, claim: Option<Claim>, requested: Option<RunId>,
    waited: Option<Waited>, sent: Option<Sent>)

  function Quit(s: StoreState): (r: Effect) { Effect(s, None, None, None, None, None, None) }

  function Go(s: StoreState, next: Client): (r: Effect) { Effect(s, Some(next), None, None, None, None, None) }

  ghost predicate IsLatestActive(runs: map<RunId, Run>, job: JobId, r: RunId) {
    && r in runs && runs[r].jobId == job && !runs[r].state.IsTerminal()
    && forall q :: q in runs && runs[q].jobId == job && !runs[q].state.IsTerminal() ==>
      runs[q].sequence <= runs[r].sequence
  }

  ghost function LatestActiveRun(s: StoreState, job: JobId): (r: Option<Run>) {
    if exists r :: IsLatestActive(s.runs, job, r) then
      var r :| IsLatestActive(s.runs, job, r);
      Some(s.runs[r])
    else None
  }

  /** The reasons the programs write into the transition table. */
  datatype Reason =
    | LoadedDeadline | DeadlineDue | MonitorClaimed | MonitorLost
    | CancelledRunFinished | CommandSucceeded | CommandFailed | OutcomeUnknown
    | CancelAsked | CancelledEarly | CancellationFinished
  {
    function Text(): (r: string) {
      match this
      case LoadedDeadline => "supervisor loaded deadline"
      case DeadlineDue => "deadline became due"
      case MonitorClaimed => "run monitor claimed command"
      case MonitorLost => "run monitor could not start"
      case CancelledRunFinished => "cancelled run finished"
      case CommandSucceeded => "command exited successfully"
      case CommandFailed => "command failed"
      case OutcomeUnknown => "command outcome is unknown"
      case CancelAsked => "cancel requested"
      case CancelledEarly => "cancelled before command start"
      case CancellationFinished => "cancellation finished"
    }
  }

  lemma ReasonIsValid(reason: Reason)
    ensures ValidReason(reason.Text())
  {
    match reason
    case LoadedDeadline => assert ValidReason("supervisor loaded deadline");
    case DeadlineDue => assert ValidReason("deadline became due");
    case MonitorClaimed => assert ValidReason("run monitor claimed command");
    case MonitorLost => assert ValidReason("run monitor could not start");
    case CancelledRunFinished => assert ValidReason("cancelled run finished");
    case CommandSucceeded => assert ValidReason("command exited successfully");
    case CommandFailed => assert ValidReason("command failed");
    case OutcomeUnknown => assert ValidReason("command outcome is unknown");
    case CancelAsked => assert ValidReason("cancel requested");
    case CancelledEarly => assert ValidReason("cancelled before command start");
    case CancellationFinished => assert ValidReason("cancellation finished");
  }

  // ----- the supervisor

  const CANCELLED_EARLY := RunOutcome.Cancelled("cancelled before command start")
  const SPAWN_FAILED := RunOutcome.Failed("monitor spawn failed")

  ghost function DueStep(s: StoreState, c: Client, ch: Choice): (r: Effect)
    requires c.DueLoad? || c.DueWaiting? || c.DueStarting? || c.DueClaim? || c.DueRunning? || c.DueSpawn?
             || c.DueFailRead? || c.DueFailWrite? || c.DueFailJob?
  {
    match c
    case DueLoad(id) =>
      (match LoadJob(s, id)
       case Err(_) => Quit(s)
       case Ok(job) =>
         if job.state.Scheduled? then Go(s, DueWaiting(job, ch.now))
         else if job.state.Waiting? then Go(s, DueStarting(job, ch.now))
         else Quit(s))
    case DueWaiting(job, now) =>
      var (after, r) :=
        JobTransitioned(s, job.id, job.revision, Waiting, false, Supervisor, LoadedDeadline.Text(), now);
      if r.Ok? then Go(after, DueStarting(r.value, now)) else Quit(s)
    case DueStarting(job, now) =>
      var (after, r) := JobTransitioned(s, job.id, job.revision, Starting, false, Supervisor, DeadlineDue.Text(), now);
      if r.Ok? then Go(after, DueClaim(r.value, now)) else Quit(s)
    case DueClaim(job, now) =>
      var (after, r) := RunClaimed(s, job.id, job.nextDue, now, ch.runId, ch.token);
      if r.Ok? then Go(after, DueRunning(job, r.value, now)).(claim := Some(Claim(ch.runId, job.id, job.revision)))
      else Quit(s)
    case DueRunning(job, run, now) =>
      var (after, r) :=
        JobTransitioned(s, job.id, job.revision, Running, false, Supervisor, MonitorClaimed.Text(), now);
      if r.Ok? then Go(after, DueSpawn(r.value, run)) else Quit(s)
    case DueSpawn(job, run) =>
      if ch.ok then Quit(s).(spawned := Some(MonLoadJob(job.id, run.id)))
      else Go(s, DueFailRead(job, run, ch.now))
    case DueFailRead(job, run, finishedAt) =>
      (match PlanTerminal(s, run.id, run.claimToken, finishedAt, SPAWN_FAILED)
       case Refuse(_) => Quit(s)
       case AlreadyRecorded(_) => Go(s, DueFailJob(job, finishedAt))
       case WriteOutcome(_) => Go(s, DueFailWrite(job, s.runs[run.id], finishedAt)))
    case DueFailWrite(job, seen, finishedAt) =>
      (match TerminalWrite(s, seen, finishedAt, SPAWN_FAILED)
       case None => Quit(s)
       case Some(after) => Go(after, DueFailJob(job, finishedAt)))
    case DueFailJob(job, finishedAt) =>
      Quit(JobTransitioned(s, job.id, job.revision, JobState.Failed, false, Supervisor, MonitorLost.Text(),
                           finishedAt).0)
  }

  /** The writing half of `record_run_terminal`, from the row the reading half saw. */
  function TerminalWrite(s: StoreState, seen: Run, finishedAt: UtcTimestamp, outcome: RunOutcome)
    : (r: Option<StoreState>)
  {
    match WithOutcome(seen, finishedAt, outcome)
    case Err(_) => None
    case Ok(completed) => WriteTerminal(s, completed)
  }

  // ----- the monitor

  ghost function MonStep(s: StoreState, c: Client, ch: Choice): (r: Effect)
    requires c.MonLoadJob? || c.MonLoadRun? || c.MonCheck? || c.MonPrepare? || c.MonMarkRead? || c.MonMarkWrite?
             || c.MonWait? || c.MonObserve? || c.MonRecordRead? || c.MonRecordWrite?
             || c.MonFinishLoad? || c.MonFinishWrite?
  {
    match c
    case MonLoadJob(id, runId) =>
      (match LoadJob(s, id)
       case Err(_) => Quit(s)
       case Ok(job) => Go(s, MonLoadRun(job, runId)))
    case MonLoadRun(job, runId) =>
      (match LoadRun(s, runId)
       case Err(_) => Quit(s)
       case Ok(run) => if run.jobId != job.id then Quit(s) else Go(s, MonCheck(job, run)))
    case MonCheck(job, run) =>
      (match LoadClaimed(s, run.id, run.claimToken)
       case Err(_) => Quit(s)
       case Ok(stored) => if !stored.state.RunStarting? || stored != run then Quit(s) else Go(s, MonPrepare(job, run)))
    case MonPrepare(job, run) =>
      if ch.ok then Go(s, MonMarkRead(job, run, ch.facts.(startedAt := ch.now)))
      else Go(s, MonRecordRead(job, run, ch.now, RunOutcome.Failed(ch.message)))
    case MonMarkRead(job, run, facts) =>
      (match LoadClaimed(s, run.id, run.claimToken)
       case Err(_) => Quit(s)
       case Ok(seen) => if Started(seen, facts).Err? then Quit(s) else Go(s, MonMarkWrite(job, seen, facts)))
    case MonMarkWrite(job, seen, facts) =>
      (match Started(seen, facts)
       case Err(_) => Quit(s)
       case Ok(running) =>
         match WriteRunning(s, running)
         case None => Quit(s)
         case Some(after) => Go(after, MonWait(job, running)))
    case MonWait(job, run) =>
      Go(s, MonObserve(job, run, ch.now, ch.status, ch.captureFailed))
      .(waited := Some(Waited(run.id, ch.status, ch.captureFailed)))
    case MonObserve(job, run, finishedAt, status, captureFailed) =>
      var current := LoadRun(s, run.id);
      if current.Err? && !current.error.NotFound? then Quit(s)
      else
        var requested := current.Ok? && current.value.state.RunCancelRequested?;
        Go(s, MonRecordRead(job, run, finishedAt, CompletionOutcome(status, captureFailed, requested)))
    case MonRecordRead(job, run, finishedAt, outcome) =>
      (match PlanTerminal(s, run.id, run.claimToken, finishedAt, outcome)
       case Refuse(_) => Quit(s)
       case AlreadyRecorded(done) => Go(s, MonFinishLoad(job, done.state))
       case WriteOutcome(_) => Go(s, MonRecordWrite(job, s.runs[run.id], finishedAt, outcome)))
    case MonRecordWrite(job, seen, finishedAt, outcome) =>
      (match TerminalWrite(s, seen, finishedAt, outcome)
       case None => Quit(s)
       case Some(after) => Go(after, MonFinishLoad(job, OutcomeState(outcome))))
    case MonFinishLoad(job, runState) =>
      (match LoadJob(s, job.id)
       case Err(_) => Quit(s)
       case Ok(current) => if current.state.IsTerminal() then Quit(s) else Go(s, MonFinishWrite(current, runState)))
    case MonFinishWrite(job, runState) => Quit(FinishJob(s, job, runState, ch.now))
  }

  /** The job-side end of `finish_job`, from the row it has just loaded. */
  function FinishJob(s: StoreState, current: JobSnapshot, runState: RunState, now: UtcTimestamp): (r: StoreState) {
    if current.state.CancelRequested? || runState.RunCancelled? then
      JobTransitioned(s, current.id, current.revision, JobState.Cancelled, false, Monitor, CancelledRunFinished.Text(),
                      now).0
    else if current.schedule.RecurringInterval? then
      RecurringAdvanced(s, current.id, current.revision, now).0
    else
      match runState
      case RunSucceeded =>
        JobTransitioned(s, current.id, current.revision, Succeeded, false, Monitor, CommandSucceeded.Text(), now).0
      case RunFailed =>
        JobTransitioned(s, current.id, current.revision, JobState.Failed, false, Monitor, CommandFailed.Text(), now).0
      case RunInterrupted =>
        JobTransitioned(s, current.id, current.revision, JobState.Interrupted, false, Monitor, OutcomeUnknown.Text(),
                        now).0
      case _ => s
  }

  // ----- the canceller

  /** Inside `cancel_validated_group`. */
  predicate IsSignalling(c: Client) {
    c.CanSignal? || c.CanTerm? || c.CanGrace? || c.CanLastLook? || c.CanKill?
  }

  /** Does this client ask whether the command's leader is alive? */
  predicate Inspects(c: Client) {
    c.CanSignal? || c.CanGrace? || c.CanLastLook?
  }

  /** Looking, TERM, the grace loop, a last look, KILL. An error ends the canceller; every other
      result sends it on to wait for the run. */
  function GroupStep(s: StoreState, c: Client, ch: Choice): (r: Effect)
    requires IsSignalling(c)
  {
    if Inspects(c) && ch.inspection.InspectionFailed? then Quit(s)
    else if Inspects(c) && !ch.inspection.Alive? then Go(s, CanPoll(c.job, c.run.id))
    else
      match c
      case CanSignal(job, run) =>
        if run.commandIdentity.Some? && run.commandIdentity.value.processGroupId == 0 then Quit(s)
        else Go(s, CanTerm(job, run))
      case CanTerm(job, run) =>
        (match ch.answer
         case NoSuchProcess => Go(s, CanPoll(job, run.id))
         case Refused(_) => Quit(s)
         case Delivered =>
           var sent := Some(Sent(run.id, false));
           if ch.instant + ch.grace > Group.INSTANT_MAX then Quit(s).(sent := sent)
           else Go(s, CanGrace(job, run, ch.instant + ch.grace, 0)).(sent := sent))
      case CanGrace(job, run, deadline, look) =>
        Go(s, if ch.instant >= deadline then CanLastLook(job, run) else CanGrace(job, run, deadline, look + 1))
      case CanLastLook(job, run) => Go(s, CanKill(job, run))
      case CanKill(job, run) =>
        match ch.answer
        case NoSuchProcess => Go(s, CanPoll(job, run.id))
        case Refused(_) => Quit(s)
        case Delivered => Go(s, CanPoll(job, run.id)).(sent := Some(Sent(run.id, true)))
  }

  ghost function CanStep(s: StoreState, c: Client, ch: Choice): (r: Effect)
    requires c.CanResolve? || c.CanActive? || c.CanRequest? || c.CanReload? || c.CanNoRun? || c.CanRunLoad?
             || c.CanCommitRead? || c.CanCommitWrite? || IsSignalling(c) || c.CanRecordRead? || c.CanRecordWrite?
             || c.CanPoll? || c.CanFinishLoad? || c.CanFinishWrite?
  {
    match c
    case CanResolve(id) =>
      (match LoadJob(s, id)
       case Err(_) => Quit(s)
       case Ok(job) => if job.state.IsTerminal() || job.state.CancelRequested? then Quit(s) else Go(s, CanActive(job)))
    case CanActive(job) => Go(s, CanRequest(job, LatestActiveRun(s, job.id), CANCEL_ATTEMPTS))
    case CanRequest(job, active, left) =>
      if left == 0 || job.state.CancelRequested? || job.state.IsTerminal() then Quit(s)
      else
        var (after, r) :=
          JobTransitioned(s, job.id, job.revision, CancelRequested, false, Cli, CancelAsked.Text(), ch.now);
        if r.Ok? then Go(after, if active.None? then CanNoRun(r.value, ch.now) else CanRunLoad(r.value, active.value))
        else if r.error.Conflict? || r.error.Domain? then Go(s, CanReload(job, active, left - 1))
        else Quit(s)
    case CanReload(job, active, left) =>
      (match LoadJob(s, job.id)
       case Err(_) => Quit(s)
       case Ok(current) => Go(s, CanRequest(current, active, left)))
    case CanNoRun(job, now) =>
      Quit(JobTransitioned(s, job.id, job.revision, JobState.Cancelled, false, Cli, CancelledEarly.Text(), now).0)
    case CanRunLoad(job, run) =>
      (match LoadClaimed(s, run.id, run.claimToken)
       case Err(_) => Quit(s)
       case Ok(current) =>
         Go(s, if current.state.IsTerminal() then CanPoll(job, current.id) else CanCommitRead(job, current)))
    case CanCommitRead(job, run) =>
      (match PlanRequest(s, run.id, run.claimToken)
       case RefuseRequest(_) => Quit(s)
       case AlreadyRequested(committed) => Go(s, AfterCommit(job, committed))
       case WriteRequest(seen, _) => Go(s, CanCommitWrite(job, seen)))
    case CanCommitWrite(job, seen) =>
      (match WriteRequested(s, seen)
       case None => Quit(s)
       case Some(after) =>
         Go(after, AfterCommit(job, seen.(state := RunCancelRequested))).(requested := Some(seen.id)))
    case CanSignal(_, _) => GroupStep(s, c, ch)
    case CanTerm(_, _) => GroupStep(s, c, ch)
    case CanGrace(_, _, _, _) => GroupStep(s, c, ch)
    case CanLastLook(_, _) => GroupStep(s, c, ch)
    case CanKill(_, _) => GroupStep(s, c, ch)
    case CanRecordRead(job, run) =>
      (match PlanTerminal(s, run.id, run.claimToken, ch.now, CANCELLED_EARLY)
       case Refuse(_) => Quit(s)
       case AlreadyRecorded(_) => Go(s, CanPoll(job, run.id))
       case WriteOutcome(_) => Go(s, CanRecordWrite(job, s.runs[run.id], ch.now)))
    case CanRecordWrite(job, seen, finishedAt) =>
      (match TerminalWrite(s, seen, finishedAt, CANCELLED_EARLY)
       case None => Quit(s)
       case Some(after) => Go(after, CanPoll(job, seen.id)))
    case CanPoll(job, runId) =>
      (match LoadRun(s, runId)
       case Err(_) => Quit(s)
       case Ok(current) => if current.state.IsTerminal() then Go(s, CanFinishLoad(job, current.state)) else Go(s, c))
    case CanFinishLoad(job, runState) =>
      (match LoadJob(s, job.id)
       case Err(_) => Quit(s)
       case Ok(current) =>
         if current.state.IsTerminal() || !runState.IsTerminal() then Quit(s)
         else Go(s, CanFinishWrite(current, MatchingJobState(runState))))
    case CanFinishWrite(job, target) =>
      Quit(JobTransitioned(s, job.id, job.revision, target, false, Cli, CancellationFinished.Text(), ch.now).0)
  }

  /** `cancel_claimed_run` once the request is stored: signal only a run that names a process. */
  function AfterCommit(job: JobSnapshot, committed: Run): (r: Client) {
    if committed.commandIdentity.None? then CanRecordRead(job, committed) else CanSignal(job, committed)
  }

  function MatchingJobState(runState: RunState): (r: JobState)
    requires runState.IsTerminal()
  {
    match runState
    case RunSucceeded => Succeeded
    case RunCancelled => JobState.Cancelled
    case RunFailed => JobState.Failed
    case RunInterrupted => JobState.Interrupted
  }

  predicate IsSupervisor(c: Client) {
    c.DueLoad? || c.DueWaiting? || c.DueStarting? || c.DueClaim? || c.DueRunning? || c.DueSpawn?
    || c.DueFailRead? || c.DueFailWrite? || c.DueFailJob?
  }

  predicate IsMonitor(c: Client) {
    c.MonLoadJob? || c.MonLoadRun? || c.MonCheck? || c.MonPrepare? || c.MonMarkRead? || c.MonMarkWrite?
    || c.MonWait? || c.MonObserve? || c.MonRecordRead? || c.MonRecordWrite? || c.MonFinishLoad? || c.MonFinishWrite?
  }

  ghost function Act(s: StoreState, c: Client, ch: Choice): (r: Effect) {
    if IsSupervisor(c) then DueStep(s, c, ch) else if IsMonitor(c) then MonStep(s, c, ch) else CanStep(s, c, ch)
  }

  lemma ActOf(s: StoreState, c: Client, ch: Choice)
    ensures IsSupervisor(c) ==> Act(s, c, ch) == DueStep(s, c, ch)
    ensures IsMonitor(c) ==> Act(s, c, ch) == MonStep(s, c, ch)
    ensures !IsSupervisor(c) && !IsMonitor(c) ==> Act(s, c, ch) == CanStep(s, c, ch)
  {
    hide DueStep, MonStep, CanStep;
  }

  lemma MonitorsSpawnNothing(s: StoreState, c: Client, ch: Choice)
    requires IsMonitor(c)
    ensures MonStep(s, c, ch).spawned.None?
  {
    hide LoadJob, LoadRun, LoadClaimed, Started, WriteRunning;
    hide PlanTerminal, TerminalWrite, FinishJob, CompletionOutcome;
  }

  lemma CancellersSpawnNothing(s: StoreState, c: Client, ch: Choice)
    requires !IsSupervisor(c) && !IsMonitor(c)
    ensures CanStep(s, c, ch).spawned.None?
  {
    hide LoadJob, LoadRun, LoadClaimed, JobTransitioned, PlanRequest, WriteRequested, PlanTerminal, TerminalWrite;
    hide LatestActiveRun, Reason.Text;
  }

  lemma OnlyMonitorsAreSpawned(s: StoreState, c: Client, ch: Choice)
    ensures var e := Act(s, c, ch);
      e.spawned.Some? ==>
        c.DueSpawn? && e.spawned.value == MonLoadJob(c.job.id, c.run.id) && e.next.None? && e.store == s
  {
    ActOf(s, c, ch);
    hide Act, MonStep, CanStep;
    if IsMonitor(c) {
      MonitorsSpawnNothing(s, c, ch);
    } else if !IsSupervisor(c) {
      CancellersSpawnNothing(s, c, ch);
    }
  }

  // ----- whole runs

  type ClientId = nat

  /** `requested` collects the runs whose CancelRequested write has gone through; `reaped` and
      `unreaped` the runs whose monitor waited for the command, with success and without; `reports`
      what the latest wait for each run reported; `signals`
      lists the delivered signals. */
  datatype World = World(
    store: StoreState, clients: map<ClientId, Client>, clock: UtcTimestamp, claims: seq<Claim>, requested: set<RunId>,
    reaped: set<RunId>, unreaped: set<RunId>, reports: map<RunId, Report>, signals: seq<Sent>)

  datatype Event =
    | Submit(job: JobSnapshot)
    | Arrive(client: ClientId, program: Client)
    | Stop(client: ClientId)
    | Step(client: ClientId, choice: Choice, child: ClientId)

  /** `steady`: the wall clock never goes back. `strays`: monitors may also be started by hand, for
      any job and run, and not only by the supervisor that claimed the run. `reliable`: waiting for a
      started command never fails. */
  datatype Mode = Mode(steady: bool, strays: bool, reliable: bool)

  /** What the operating system cannot answer: a process that was waited for is gone, and no later
      process has its start token, so its leader is never found alive again
      (`src/infrastructure/process/mod.rs`). */
  predicate Possible(mode: Mode, w: World, c: Client, ch: Choice) {
    && (Inspects(c) && ch.inspection.Alive? ==> c.run.id !in w.reaped)
    && (mode.reliable && c.MonWait? ==> ch.status.Ended?)
  }

  ghost predicate Enabled(mode: Mode, w: World, e: Event) {
    match e
    case Submit(job) => IsNewborn(job) && job.id !in w.store.jobs
    case Arrive(client, program) =>
      client !in w.clients && (program.DueLoad? || program.CanResolve? || (mode.strays && program.MonLoadJob?))
    case Stop(client) => client in w.clients
    case Step(client, choice, child) =>
      && client in w.clients && child !in w.clients && (mode.steady ==> w.clock <= choice.now)
      && Possible(mode, w, w.clients[client], choice)
  }

  function ReportOf(waited: Waited, requested: set<RunId>): (r: Report) {
    Report(waited.status, waited.captureFailed, waited.run in requested)
  }

  ghost function Apply(w: World, e: Event): (r: World)
    requires e.Step? ==> e.client in w.clients
  {
    match e
    case Submit(job) => w.(store := JobCreated(w.store, job).0)
    case Arrive(client, program) => w.(clients := w.clients[client := program])
    case Stop(client) => w.(clients := w.clients - {client})
    case Step(client, choice, child) =>
      var effect := Act(w.store, w.clients[client], choice);
      var others := w.clients - {client};
      var kept := if effect.next.Some? then others[client := effect.next.value] else others;
      World(
        effect.store,
        if effect.spawned.Some? then kept[child := effect.spawned.value] else kept,
        choice.now,
        if effect.claim.Some? then w.claims + [effect.claim.value] else w.claims,
        if effect.requested.Some? then w.requested + {effect.requested.value} else w.requested,
        if effect.waited.Some? && effect.waited.value.status.Ended? then w.reaped + {effect.waited.value.run}
          else w.reaped,
        if effect.waited.Some? && !effect.waited.value.status.Ended? then w.unreaped + {effect.waited.value.run}
        else w.unreaped,
        if effect.waited.Some? then w.reports[effect.waited.value.run := ReportOf(effect.waited.value, w.requested)]
        else w.reports,
        if effect.sent.Some? then w.signals + [effect.sent.value] else w.signals)
  }

  ghost predicate Next(mode: Mode, before: World, after: World) {
    exists e :: Enabled(mode, before, e) && after == Apply(before, e)
  }

  lemma EventBetween(mode: Mode, before: World, after: World) returns (e: Event)
    requires Next(mode, before, after)
    ensures Enabled(mode, before, e) && after == Apply(before, e)
  {
    hide Act;
    e :| Enabled(mode, before, e) && after == Apply(before, e);
  }

  ghost predicate Initial(w: World) {
    w.store == EMPTY && w.clients == map[] && w.claims == [] && w.requested == {}
    && w.reaped == {} && w.unreaped == {} && w.reports == map[] && w.signals == []
  }

  /** A finite run of the whole system, from an empty store. */
  ghost predicate Trace(mode: Mode, ws: seq<World>) {
    |ws| > 0 && Initial(ws[0]) && forall i | 0 <= i < |ws| - 1 :: Next(mode, ws[i], ws[i + 1])
  }
}
