/** The canceller's program (`src/cli/dispatch.rs`, `src/application/cancel.rs`). */
module Cancelling {
  import opened Wrappers
  import opened Primitives
  import opened Transitions
  import opened Jobs
  import opened Runs
  import opened Store
  import opened Protocol
  import opened Programs
  import opened Signalling
  import Group = GroupCancellation

  lemma RecordCancelledAlone(s: StoreState, job: JobSnapshot, run: Run, oracle: Oracle) returns (steps: nat)
    requires run.id in s.runs ==> s.runs[run.id].id == run.id
    ensures var c := CanRecordRead(job, run);
      var (after, r) := RunRecorded(s, run.id, run.claimToken, oracle(c).now, CANCELLED_EARLY);
      Solo(s, c, oracle, steps) == Place(after, if r.Ok? then Some(CanPoll(job, run.id)) else None, [])
  {
    hide Solo, Act, PlanTerminal, TerminalWrite, WriteTerminal;
    var c := CanRecordRead(job, run);
    var finishedAt := oracle(c).now;
    NoStep(s, c, oracle);
    CanActs(s, c, oracle, s, c, 0, []);
    steps := 1;
    PlanThenWrite(s, run.id, run.claimToken, finishedAt, CANCELLED_EARLY);
    if PlanTerminal(s, run.id, run.claimToken, finishedAt, CANCELLED_EARLY).WriteOutcome? {
      CanActs(s, CanRecordWrite(job, s.runs[run.id], finishedAt), oracle, s, c, 1, []);
      steps := 2;
    }
  }

  /** The outcome of a run that was cancelled before its command started. */
  method RecordCancelled(store: JobStore, job: JobSnapshot, run: Run, oracle: Oracle)
    returns (r: Option<RunId>, ghost steps: nat, ghost deeds: seq<Deed>)
    requires store.Valid()
    modifies store`runs
    ensures store.Valid()
    ensures Solo(old(store.State()), CanRecordRead(job, run), oracle, steps)
         == Place(store.State(), if r.Some? then Some(CanPoll(job, r.value)) else None, deeds)
    ensures deeds == [] && (r.Some? ==> r.value == run.id)
    ensures LoadClaimed(old(store.State()), run.id, run.claimToken) == Ok(run) && run.state.RunCancelRequested? ==>
      var finishedAt := oracle(CanRecordRead(job, run)).now;
      store.runs == if finishedAt < run.createdAt then old(store.runs)
                    else old(store.runs)[run.id := Concluded(run, finishedAt, CANCELLED_EARLY)]
  {
    hide Solo, RunRecorded, LoadClaimed, WithOutcome;
    deeds := [];
    if LoadClaimed(store.State(), run.id, run.claimToken) == Ok(run) && run.state.RunCancelRequested? {
      RecordingIsExact(store.State(), run, oracle(CanRecordRead(job, run)).now, CANCELLED_EARLY);
    }
    steps := RecordCancelledAlone(store.State(), job, run, oracle);
    var recorded :=
      store.RecordRunTerminal(run.id, run.claimToken, oracle(CanRecordRead(job, run)).now, CANCELLED_EARLY);
    r := if recorded.Ok? then Some(run.id) else None;
  }

  /** The stored run after a cancellation that nobody interrupts: with a process it is requested, and
      whoever waits for the process goes on from there; without one it has ended as cancelled, unless
      the clock has gone back behind its creation. */
  predicate AskedAs(runs: map<RunId, Run>, after: map<RunId, Run>, job: JobSnapshot, id: RunId, oracle: Oracle)
    requires id in runs
  {
    var asked := runs[id].(state := RunCancelRequested);
    var finishedAt := oracle(CanRecordRead(job, asked)).now;
    after == runs[id := if asked.commandIdentity.Some? || finishedAt < asked.createdAt then asked
                        else Concluded(asked, finishedAt, CANCELLED_EARLY)]
  }

  lemma RequestedIsReadable(s: StoreState, id: RunId, token: ClaimToken)
    requires id in s.runs && s.runs[id].id == id && !s.runs[id].state.IsTerminal()
    ensures LoadClaimed(s, id, token).Ok? ==>
      var asked := s.runs[id].(state := RunCancelRequested);
      LoadClaimed(s.(runs := s.runs[id := asked]), asked.id, asked.claimToken) == Ok(asked)
  {
    hide ValidIdentity, ValidLogPath;
  }

  /** The commit call and what it leads to. */
  method CommitAndSignal(store: JobStore, job: JobSnapshot, run: Run, oracle: Oracle, looks: nat)
    returns (r: Option<Client>, ghost steps: nat, ghost deeds: seq<Deed>)
    requires store.Valid()
    requires run.id in store.runs && !store.runs[run.id].state.IsTerminal()
    modifies store`runs
    ensures store.Valid()
    ensures Solo(old(store.State()), CanCommitRead(job, run), oracle, steps) == Place(store.State(), r, deeds)
    ensures r.None? || r.value == CanPoll(job, run.id) || r.value.CanGrace?
    ensures SignalsComeAfter(deeds, run.id, WasAskedFor(old(store.State()), run.id))
    ensures LoadClaimed(old(store.State()), run.id, run.claimToken).Ok? ==>
      AskedAs(old(store.runs), store.runs, job, run.id, oracle)
  {
    hide Solo, RunRequested, LoadClaimed;
    ghost var s0 := store.State();
    RequestedIsReadable(s0, run.id, run.claimToken);
    steps, deeds := CommitAlone(s0, job, run, oracle);
    var committed := store.RequestRunCancellation(run.id, run.claimToken);
    if committed.Err? {
      return None, steps, deeds;
    }
    ghost var more, extra;
    if committed.value.commandIdentity.Some? {
      r, more, extra := SignalGroup(store, job, committed.value, oracle, looks);
    } else {
      var waiting;
      waiting, more, extra := RecordCancelled(store, job, committed.value, oracle);
      r := if waiting.Some? then Some(CanPoll(job, waiting.value)) else None;
    }
    SoloJoins(s0, CanCommitRead(job, run), oracle, steps, more);
    steps, deeds := steps + more, deeds + extra;
  }

  /** The commit call of a canceller that runs alone: it stores the request unless that is there
      already, and then stands before the signal or before the record of a run without a process. */
  lemma CommitAlone(s: StoreState, job: JobSnapshot, run: Run, oracle: Oracle) returns (steps: nat, deeds: seq<Deed>)
    requires run.id in s.runs && s.runs[run.id].id == run.id && !s.runs[run.id].state.IsTerminal()
    ensures var (after, r) := RunRequested(s, run.id, run.claimToken);
      && Solo(s, CanCommitRead(job, run), oracle, steps)
         == Place(after, if r.Ok? then Some(AfterCommit(job, r.value)) else None, deeds)
      && (r.Ok? ==> r.value.id == run.id && (deeds == [DidRequest(run.id)] || (deeds == [] && WasAskedFor(s, run.id))))
      && (r.Err? ==> deeds == [])
  {
    hide Solo, Act, PlanRequest, WriteRequested;
    var c := CanCommitRead(job, run);
    deeds := [];
    NoStep(s, c, oracle);
    CanActs(s, c, oracle, s, c, 0, deeds);
    steps := 1;
    var plan := PlanRequest(s, run.id, run.claimToken);
    PlanKeepsRequest(s, run.id, run.claimToken);
    if plan.WriteRequest? {
      CanActs(s, CanCommitWrite(job, plan.seen), oracle, s, c, 1, deeds);
      steps := 2;
      if WriteRequested(s, plan.seen).Some? { deeds := [DidRequest(run.id)]; }
    }
  }

  /** Every signal goes to `run`, and after its request unless that was there already. */
  ghost predicate SignalsComeAfter(deeds: seq<Deed>, run: RunId, asked: bool) {
    forall i | 0 <= i < |deeds| && deeds[i].DidSignal? ::
      deeds[i].sent.run == run && (asked || deeds[0] == DidRequest(run))
  }

  lemma PlanKeepsRequest(s: StoreState, id: RunId, token: ClaimToken)
    ensures var plan := PlanRequest(s, id, token);
      && (plan.WriteRequest? ==>
            id in s.runs && plan.seen == s.runs[id] && s.runs[id].id == plan.seen.id
            && plan.requested == plan.seen.(state := RunCancelRequested))
      && (plan.AlreadyRequested? ==> id in s.runs && plan.run == s.runs[id])
      && (plan.AlreadyRequested? && !plan.run.state.IsTerminal() ==> plan.run.state.RunCancelRequested?)
  {}

  /** A run that cannot be read, or is finished, is left alone; any other is cancelled. */
  predicate RunIsCancelled(s: StoreState, after: map<RunId, Run>, job: JobSnapshot, run: Run, oracle: Oracle) {
    if LoadClaimed(s, run.id, run.claimToken).Err? || run.id !in s.runs || s.runs[run.id].state.IsTerminal()
    then after == s.runs
    else AskedAs(s.runs, after, job, run.id, oracle)
  }

  predicate CancelsRun(s: StoreState, after: StoreState, job: JobSnapshot, run: Run, oracle: Oracle) {
    RunIsCancelled(s, after.runs, job, run, oracle) && after.jobs == s.jobs && after.history == s.history
  }

  /** Commits the request and then signals, in this order. The canceller ends up waiting for the run,
      in a grace loop whose looks ran out, or nowhere after an error of the store, of the inspector or
      of a signal. Every signal comes after the request of this very call, unless the run had been
      requested before. */
  method CancelClaimedRun(store: JobStore, job: JobSnapshot, run: Run, oracle: Oracle, looks: nat)
    returns (r: Option<Client>, ghost steps: nat, ghost deeds: seq<Deed>)
    requires store.Valid()
    modifies store`runs
    ensures store.Valid()
    ensures Solo(old(store.State()), CanRunLoad(job, run), oracle, steps) == Place(store.State(), r, deeds)
    ensures r.None? || r.value == CanPoll(job, run.id) || r.value.CanGrace?
    ensures SignalsComeAfter(deeds, run.id, WasAskedFor(old(store.State()), run.id))
    ensures CancelsRun(old(store.State()), store.State(), job, run, oracle)
  {
    hide Solo, Act, AskedAs, LoadClaimed, PlanRequest, WriteRequested, AnswersFrom, SentIn, Group.Conduct;
    ghost var s0, c0 := store.State(), CanRunLoad(job, run);
    deeds := [];
    NoStep(s0, c0, oracle);
    CanActs(s0, c0, oracle, s0, c0, 0, deeds);
    steps := 1;
    var loaded := LoadClaimed(store.State(), run.id, run.claimToken);
    ClaimedRow(store.State(), run.id, run.claimToken);
    if loaded.Err? {
      return None, steps, deeds;
    }
    var current := loaded.value;
    if current.state.IsTerminal() {
      return Some(CanPoll(job, current.id)), steps, deeds;
    }
    ghost var more, extra;
    r, more, extra := CommitAndSignal(store, job, current, oracle, looks);
    SoloJoins(s0, c0, oracle, 1, more);
    steps, deeds := 1 + more, extra;
    assert [] + extra == extra;
  }

  ghost predicate WasAskedFor(s: StoreState, id: RunId) {
    id in s.runs && s.runs[id].state.RunCancelRequested?
  }

  lemma LoadedRow(s: StoreState, id: RunId)
    ensures LoadRun(s, id).Ok? ==> id in s.runs && LoadRun(s, id).value == s.runs[id]
  {}

  datatype Wait = SeenFinished(runState: RunState) | Refused | CutOff(at: Client)

  function AfterWait(r: Wait, job: JobSnapshot): (result: Option<Client>) {
    match r
    case SeenFinished(runState) => Some(CanFinishLoad(job, runState))
    case Refused => None
    case CutOff(at) => Some(at)
  }

  /** Cancels the run and then looks at it until it is finished, `looks` times before the deadline
      at most. A run that nobody else finishes is still standing at the poll when time is up. */
  method CancelActiveRun(store: JobStore, job: JobSnapshot, run: Run, oracle: Oracle, looks: nat)
    returns (r: Wait, ghost steps: nat, ghost deeds: seq<Deed>)
    requires store.Valid()
    modifies store`runs
    ensures store.Valid()
    ensures Solo(old(store.State()), CanRunLoad(job, run), oracle, steps)
      == Place(store.State(), AfterWait(r, job), deeds)
    ensures r.CutOff? ==> r.at.CanPoll? || r.at.CanGrace?
    ensures SignalsComeAfter(deeds, run.id, WasAskedFor(old(store.State()), run.id))
    ensures CancelsRun(old(store.State()), store.State(), job, run, oracle)
    ensures r.SeenFinished? ==>
      run.id in store.runs && store.runs[run.id].state == r.runState && r.runState.IsTerminal()
  {
    hide Solo, Act, LoadRun, SignalsComeAfter, CancelsRun;
    ghost var s0, c0 := store.State(), CanRunLoad(job, run);
    var cancelled;
    cancelled, steps, deeds := CancelClaimedRun(store, job, run, oracle, looks);
    if cancelled.None? {
      return Refused, steps, deeds;
    }
    if cancelled.value.CanGrace? {
      return CutOff(cancelled.value), steps, deeds;
    }
    var runId := cancelled.value.runId;
    ghost var after := store.State();
    for look := 0 to looks
      invariant store.Valid() && store.State() == after
      invariant Solo(s0, c0, oracle, steps) == Place(after, Some(CanPoll(job, runId)), deeds)
    {
      LoadedRow(store.State(), runId);
      CanActs(store.State(), CanPoll(job, runId), oracle, s0, c0, steps, deeds);
      steps := steps + 1;
      var current := LoadRun(store.State(), runId);
      if current.Err? {
        return Refused, steps, deeds;
      }
      if current.value.state.IsTerminal() {
        return SeenFinished(current.value.state), steps, deeds;
      }
    }
    return CutOff(CanPoll(job, runId)), steps, deeds;
  }

  datatype ManagementError = NotFound | StateConflict | Storage(error: StoreError)

  /** What a successful cancellation may report: a job as it is stored, finished, about to be
      cancelled by somebody, or back to Waiting for its next occurrence. */
  predicate Settled(s: StoreState, id: JobId, job: JobSnapshot) {
    && id in s.jobs && s.jobs[id] == job
    && (job.state.IsTerminal() || job.state.CancelRequested? || job.state.Waiting?)
  }

  lemma FinishAlone(s: StoreState, job: JobSnapshot, runState: RunState, oracle: Oracle) returns (steps: nat)
    ensures var loaded := LoadJob(s, job.id);
      Solo(s, CanFinishLoad(job, runState), oracle, steps)
      == Place(
        if !runState.IsTerminal() || loaded.Err? || loaded.value.state.IsTerminal() then s
        else
          var current, target := loaded.value, MatchingJobState(runState);
          JobTransitioned(s, current.id, current.revision, target, false, Cli, CancellationFinished.Text(),
                          oracle(CanFinishWrite(current, target)).now).0,
        None, [])
  {
    hide Solo, Act, LoadJob, JobTransitioned, Reason.Text, MatchingJobState;
    var c, loaded := CanFinishLoad(job, runState), LoadJob(s, job.id);
    NoStep(s, c, oracle);
    CanActs(s, c, oracle, s, c, 0, []);
    steps := 1;
    if runState.IsTerminal() && loaded.Ok? && !loaded.value.state.IsTerminal() {
      CanActs(s, CanFinishWrite(loaded.value, MatchingJobState(runState)), oracle, s, c, 1, []);
      steps := 2;
    }
  }

  /** The job ends as its run did. */
  predicate Matches(runState: RunState, state: JobState) {
    || (runState.RunSucceeded? && state.Succeeded?)
    || (runState.RunFailed? && state.Failed?)
    || (runState.RunCancelled? && state.Cancelled?)
    || (runState.RunInterrupted? && state.Interrupted?)
  }

  /** What a canceller that is alone leaves of the job once its run is finished: a finished job as it is;
      the matching state if that is open from where the job stands; and an unfinished job otherwise. Only
      a job that is back to Waiting for its next occurrence counts as a success without being settled. */
  predicate EndsAs(s: StoreState, after: StoreState, id: JobId, runState: RunState, now: UtcTimestamp,
                   r: Result<JobSnapshot, ManagementError>)
  {
    if !runState.IsTerminal() || id !in s.jobs || s.jobs[id].updatedAt < s.jobs[id].createdAt then
      r.Err? && after == s
    else
      var job := s.jobs[id];
      if job.state.IsTerminal() then r == Ok(job) && after == s
      else if job.revision < I64_MAX && job.updatedAt <= now && EndIsOpen(job.state, runState) then
        && r.Ok? && Matches(runState, r.value.state) && r.value == Onto(job, r.value.state, now)
        && after == Committed(s, r.value, job.state, Cli, "cancellation finished")
      else
        after == s && (r.Ok? <==> job.state.Waiting?) && (r.Ok? ==> r.value == job)
  }

  /** Only a requested job can be Cancelled, and only one whose command runs can be anything else. */
  predicate EndIsOpen(state: JobState, runState: RunState) {
    || state.CancelRequested?
    || (state.Running? && !runState.RunCancelled?)
    || (state.Starting? && (runState.RunFailed? || runState.RunInterrupted?))
  }

  /** Gives the job the state that matches the finished run. */
  method FinishJobCancellation(store: JobStore, job: JobSnapshot, runState: RunState, oracle: Oracle)
    returns (r: Result<JobSnapshot, ManagementError>, ghost steps: nat, ghost deeds: seq<Deed>)
    requires store.Valid()
    modifies store
    ensures store.Valid()
    ensures Solo(old(store.State()), CanFinishLoad(job, runState), oracle, steps) == Place(store.State(), None, deeds)
    ensures r.Ok? ==> Settled(store.State(), job.id, r.value)
    ensures deeds == [] && store.runs == old(store.runs)
    ensures job.id !in old(store.jobs) || !runState.IsTerminal() ==> r.Err? && store.State() == old(store.State())
    ensures job.id in old(store.jobs) && runState.IsTerminal() ==>
      var current := old(store.jobs)[job.id];
      EndsAs(old(store.State()), store.State(), job.id, runState,
             oracle(CanFinishWrite(current, MatchingJobState(runState))).now, r)
  {
    hide Solo, JobTransitioned;
    assert CancellationFinished.Text() == "cancellation finished";
    steps := FinishAlone(store.State(), job, runState, oracle);
    deeds := [];
    if !runState.IsTerminal() {
      return Err(StateConflict), steps, deeds;
    }
    var target := MatchingJobState(runState);
    var loaded := store.Load(job.id);
    if loaded.Err? {
      return Err(if loaded.error.NotFound? then ManagementError.NotFound else Storage(loaded.error)), steps, deeds;
    }
    var current := loaded.value.Snapshot();
    if current.state.IsTerminal() {
      return Ok(current), steps, deeds;
    }
    var now := oracle(CanFinishWrite(current, target)).now;
    var done := Transit(store, current, target, Cli, CancellationFinished, now);
    if done.Ok? {
      return Ok(done.value), steps, deeds;
    }
    if current.state.Waiting? { WaitingIsRefused(old(store.State()), current.id, runState, now); }
    if !done.error.Conflict? && !done.error.Domain? {
      return Err(Storage(done.error)), steps, deeds;
    }
    r := WhatBecame(store, current.id);
  }

  lemma WaitingIsRefused(s: StoreState, id: JobId, runState: RunState, now: UtcTimestamp)
    requires LoadJob(s, id).Ok? && s.jobs[id].id == id && s.jobs[id].state.Waiting? && runState.IsTerminal()
    ensures JobTransitioned(s, id, s.jobs[id].revision, MatchingJobState(runState), false, Cli,
                            CancellationFinished.Text(), now).1 == Err(Domain)
  {
    var to, reason := MatchingJobState(runState), CancellationFinished.Text();
    TransitionIsExact(s, id, s.jobs[id].revision, to, false, Cli, reason, now);
    hide Reason.Text, ValidReason, JobTransitioned;
  }

  /** After a lost race at the end: somebody else has finished the job, or it waits for its next
      occurrence; anything else is a conflict. */
  method WhatBecame(store: JobStore, id: JobId) returns (r: Result<JobSnapshot, ManagementError>)
    ensures r.Ok? ==> Settled(store.State(), id, r.value)
    ensures r.Ok?
      <==> LoadJob(store.State(), id).Ok? && (store.jobs[id].state.IsTerminal() || store.jobs[id].state.Waiting?)
  {
    var again := store.Load(id);
    if again.Err? {
      return Err(if again.error.NotFound? then ManagementError.NotFound else Storage(again.error));
    }
    var last := again.value.Snapshot();
    return if last.state.IsTerminal() || last.state.Waiting? then Ok(last) else Err(StateConflict);
  }

  datatype Request =
    | Asked(job: JobSnapshot, now: UtcTimestamp) | Satisfied(job: JobSnapshot) | NotAsked(error: ManagementError)

  function AfterRequest(r: Request, active: Option<Run>): (result: Option<Client>) {
    if !r.Asked? then None
    else Some(if active.None? then CanNoRun(r.job, r.now) else CanRunLoad(r.job, active.value))
  }

  function WithoutAsking(r: Request): (result: Result<JobSnapshot, ManagementError>)
    requires !r.Asked?
  {
    match r
    case Satisfied(job) => Ok(job)
    case NotAsked(error) => Err(error)
  }

  /** Where one attempt leads from the answer of the store to the request. */
  function AfterAttempt(r: Result<JobSnapshot, StoreError>, job: JobSnapshot, active: Option<Run>, left: nat,
                        now: UtcTimestamp)
    : (result: Option<Client>)
    requires left > 0
  {
    match r
    case Ok(asked) => AfterRequest(Asked(asked, now), active)
    case Err(e) => if e.Conflict? || e.Domain? then Some(CanReload(job, active, left - 1)) else None
  }

  lemma AttemptActs(s: StoreState, job: JobSnapshot, active: Option<Run>, left: nat, oracle: Oracle,
                    s0: StoreState, c0: Client, n: nat)
    requires Solo(s0, c0, oracle, n) == Place(s, Some(CanRequest(job, active, left)), [])
    ensures var now := oracle(CanRequest(job, active, left)).now;
      var (after, r) := JobTransitioned(s, job.id, job.revision, CancelRequested, false, Cli, CancelAsked.Text(), now);
      Solo(s0, c0, oracle, n + 1)
      == if left == 0 || job.state.CancelRequested? || job.state.IsTerminal() then Place(s, None, [])
         else Place(after, AfterAttempt(r, job, active, left, now), [])
  {
    hide Solo, Act, JobTransitioned, Reason.Text;
    CanActs(s, CanRequest(job, active, left), oracle, s0, c0, n, []);
    var ch := oracle(CanRequest(job, active, left));
    TransitionResult(s, job.id, job.revision, CancelRequested, Cli, CancelAsked.Text(), ch.now);
    var e := CanStep(s, CanRequest(job, active, left), ch);
    var (after, r) := JobTransitioned(s, job.id, job.revision, CancelRequested, false, Cli, CancelAsked.Text(), ch.now);
    assert Deeds(e) == [];
    if left == 0 || job.state.CancelRequested? || job.state.IsTerminal() {
      assert e.store == s && e.next.None?;
    } else {
      assert e.store == after && e.next == AfterAttempt(r, job, active, left, ch.now);
    }
  }

  lemma ReloadActs(s: StoreState, job: JobSnapshot, active: Option<Run>, left: nat, oracle: Oracle,
                   s0: StoreState, c0: Client, n: nat)
    requires Solo(s0, c0, oracle, n) == Place(s, Some(CanReload(job, active, left)), [])
    ensures var loaded := LoadJob(s, job.id);
      Solo(s0, c0, oracle, n + 1)
      == Place(s, if loaded.Ok? then Some(CanRequest(loaded.value, active, left)) else None, [])
  {
    hide Solo, Act, LoadJob;
    CanActs(s, CanReload(job, active, left), oracle, s0, c0, n, []);
  }

  /** The job can be requested, and one of the eight attempts reads a clock that is not behind it. */
  ghost predicate CanAsk(job: JobSnapshot, active: Option<Run>, oracle: Oracle) {
    && job.createdAt <= job.updatedAt && job.revision < I64_MAX && job.state in {Scheduled, Waiting, Starting, Running}
    && exists left: nat :: 1 <= left <= 8 && InTime(job, active, left, oracle)
  }

  /** From these states only a clock that is behind refuses the request. */
  lemma LateClockIsRefused(s: StoreState, job: JobSnapshot, now: UtcTimestamp)
    requires job.id in s.jobs && s.jobs[job.id] == job && !job.state.CancelRequested? && !job.state.IsTerminal()
    ensures CanCommit(s, job.id, job.revision, CancelRequested, now)
       <==> job.createdAt <= job.updatedAt <= now && job.revision < I64_MAX
    ensures now < job.updatedAt && job.createdAt <= job.updatedAt && job.revision < I64_MAX ==>
      JobTransitioned(s, job.id, job.revision, CancelRequested, false, Cli, CancelAsked.Text(), now).1 == Err(Domain)
  {
    hide Reason.Text;
  }

  predicate InTime(job: JobSnapshot, active: Option<Run>, left: nat, oracle: Oracle) {
    job.updatedAt <= oracle(CanRequest(job, active, left)).now
  }

  /** Asks for the cancellation, reloading the job after every lost race, eight times at most. */
  method RequestJobCancellation(store: JobStore, job: JobSnapshot, active: Option<Run>, oracle: Oracle)
    returns (r: Request, ghost steps: nat, ghost deeds: seq<Deed>)
    requires store.Valid() && job.id in store.jobs && store.jobs[job.id] == job
    modifies store
    ensures store.Valid() && store.runs == old(store.runs)
    ensures Solo(old(store.State()), CanRequest(job, active, CANCEL_ATTEMPTS), oracle, steps)
         == Place(store.State(), AfterRequest(r, active), deeds)
    ensures r.Satisfied? ==> Settled(store.State(), job.id, r.job)
    ensures r.Asked? ==> r.job.id == job.id
    ensures deeds == []
    ensures r.Asked? <==> CanAsk(job, active, oracle)
    ensures r.Asked? ==>
      job.revision < I64_MAX && job.updatedAt <= r.now && r.job == Onto(job, CancelRequested, r.now)
      && store.jobs == old(store.jobs)[job.id := r.job]
    ensures !r.Asked? ==> store.State() == old(store.State())
    ensures r.Satisfied? <==> job.state.CancelRequested? || job.state.Cancelled?
    ensures r.Satisfied? ==> r.job == job
  {
    hide Solo, Act, CanStep, JobTransitioned, Reason.Text;
    ghost var s0, c0 := store.State(), CanRequest(job, active, CANCEL_ATTEMPTS);
    var current, attempts: nat := job, CANCEL_ATTEMPTS;
    deeds, steps := [], 0;
    NoStep(s0, c0, oracle);
    while true
      invariant store.Valid() && store.runs == old(store.runs)
      invariant current == job && store.State() == s0 && attempts <= CANCEL_ATTEMPTS
      invariant attempts < CANCEL_ATTEMPTS ==> !job.state.CancelRequested? && !job.state.IsTerminal()
      invariant job.createdAt <= job.updatedAt && job.revision < I64_MAX ==>
        forall left: nat | attempts < left <= CANCEL_ATTEMPTS :: !InTime(job, active, left, oracle)
      invariant Solo(s0, c0, oracle, steps) == Place(store.State(), Some(CanRequest(current, active, attempts)), deeds)
      decreases attempts
    {
      AttemptActs(store.State(), current, active, attempts, oracle, s0, c0, steps);
      steps := steps + 1;
      if attempts == 0 {
        return NotAsked(StateConflict), steps, deeds;
      }
      if current.state.CancelRequested? || current.state.Cancelled? {
        return Satisfied(current), steps, deeds;
      }
      if current.state.IsTerminal() {
        return NotAsked(StateConflict), steps, deeds;
      }
      var now := oracle(CanRequest(current, active, attempts)).now;
      var pending := Transit(store, current, CancelRequested, Cli, CancelAsked, now);
      if pending.Ok? {
        assert InTime(job, active, attempts, oracle);
        return Asked(pending.value, now), steps, deeds;
      }
      LateClockIsRefused(s0, job, now);
      assert InTime(job, active, attempts, oracle) <==> job.updatedAt <= now;
      if !pending.error.Conflict? && !pending.error.Domain? {
        return NotAsked(Storage(pending.error)), steps, deeds;
      }
      attempts := attempts - 1;
      ReloadActs(store.State(), current, active, attempts, oracle, s0, c0, steps);
      steps := steps + 1;
      var reloaded := store.Load(current.id);
      if reloaded.Err? {
        return NotAsked(Storage(reloaded.error)), steps, deeds;
      }
      current := reloaded.value.Snapshot();
    }
  }

  /** What becomes of the job: a cancelled or requested one is reported as it is, any other finished one is
      a conflict, one that cannot be asked for stays as it is, one without an active run ends as
      Cancelled, and of one with an active run the run is cancelled. */
  ghost predicate CancelsJob(s: StoreState, after: StoreState, id: JobId, active: Option<Run>, oracle: Oracle,
                             r: Result<JobSnapshot, ManagementError>)
  {
    if LoadJob(s, id).Err? then r.Err? && after == s
    else
      var job := s.jobs[id];
      if job.state.CancelRequested? || job.state.Cancelled? then r == Ok(job) && after == s
      else if job.state.IsTerminal() then r == Err(StateConflict) && after == s
      else if !CanAsk(job, active, oracle) then r.Err? && after == s
      else if active.None? then CancelsAtOnce(s, after, id, r)
      else
        exists asked: UtcTimestamp ::
          && job.updatedAt <= asked
          && RunIsCancelled(s.(jobs := s.jobs[id := Onto(job, CancelRequested, asked)]), after.runs,
                            Onto(job, CancelRequested, asked), active.value, oracle)
  }

  /** Two revisions on, unless there is only one left, and no run is touched. */
  predicate CancelsAtOnce(s: StoreState, after: StoreState, id: JobId, r: Result<JobSnapshot, ManagementError>) {
    && id in s.jobs && after.runs == s.runs
    && (r.Ok? <==> s.jobs[id].revision + 1 < I64_MAX)
    && (r.Ok? ==>
          && s.jobs[id].updatedAt <= r.value.updatedAt
          && r.value == s.jobs[id].(revision := s.jobs[id].revision + 2, state := JobState.Cancelled,
               updatedAt := r.value.updatedAt)
          && after.jobs == s.jobs[id := r.value])
  }

  /** The whole cancellation of a job. `active` is what the query for its active run finds. A success
      reports the job as it is stored; signals go out only after the request for the active run. */
  method CancelJob(store: JobStore, id: JobId, active: Option<Run>, oracle: Oracle, looks: nat)
    returns (r: Result<JobSnapshot, ManagementError>, ghost steps: nat, ghost deeds: seq<Deed>,
             ghost left: Option<Client>)
    requires store.Valid() && active == LatestActiveRun(store.State(), id)
    modifies store
    ensures store.Valid()
    ensures Solo(old(store.State()), CanResolve(id), oracle, steps) == Place(store.State(), left, deeds)
    ensures left.None? || left.value.CanPoll? || left.value.CanGrace?
    ensures r.Ok? ==> left.None? && Settled(store.State(), id, r.value)
    ensures if active.None? then deeds == []
            else SignalsComeAfter(deeds, active.value.id, WasAskedFor(old(store.State()), active.value.id))
    ensures CancelsJob(old(store.State()), store.State(), id, active, oracle, r)
  {
    hide Solo, Act, LatestActiveRun, SignalsComeAfter, Settled, RunIsCancelled, CancelsAtOnce, CanAsk;
    ghost var s0, c0 := store.State(), CanResolve(id);
    left, deeds := None, [];
    NothingSent(if active.Some? then active.value.id else 0, active.Some? && WasAskedFor(s0, active.value.id));
    steps := ResolveAlone(s0, id, oracle);
    var loaded := store.Load(id);
    if loaded.Err? {
      return Err(if loaded.error.NotFound? then ManagementError.NotFound else Storage(loaded.error)), steps, deeds,
        left;
    }
    var job := loaded.value.Snapshot();
    StoredIsSettled(store.State(), id);
    if job.state.Cancelled? || job.state.CancelRequested? {
      return Ok(job), steps, deeds, left;
    }
    if job.state.IsTerminal() {
      return Err(StateConflict), steps, deeds, left;
    }
    ghost var more;
    r, more, deeds, left := CancelUnfinishedJob(store, job, active, oracle, looks);
    SoloJoins(s0, c0, oracle, steps, more);
    steps := steps + more;
    assert [] + deeds == deeds;
  }

  /** The request for a job that is not finished, and what follows it. */
  method CancelUnfinishedJob(store: JobStore, job: JobSnapshot, active: Option<Run>, oracle: Oracle, looks: nat)
    returns (r: Result<JobSnapshot, ManagementError>, ghost steps: nat, ghost deeds: seq<Deed>,
             ghost left: Option<Client>)
    requires store.Valid() && job.id in store.jobs && store.jobs[job.id] == job && job.createdAt <= job.updatedAt
    requires !job.state.IsTerminal() && !job.state.CancelRequested?
    modifies store
    ensures store.Valid()
    ensures Solo(old(store.State()), CanRequest(job, active, CANCEL_ATTEMPTS), oracle, steps)
         == Place(store.State(), left, deeds)
    ensures left.None? || left.value.CanPoll? || left.value.CanGrace?
    ensures r.Ok? ==> left.None? && Settled(store.State(), job.id, r.value)
    ensures if active.None? then deeds == []
            else SignalsComeAfter(deeds, active.value.id, WasAskedFor(old(store.State()), active.value.id))
    ensures CancelsJob(old(store.State()), store.State(), job.id, active, oracle, r)
  {
    hide Solo, Act, JobTransitioned, Reason.Text, LatestActiveRun, SignalsComeAfter, Settled, RunIsCancelled;
    ghost var s0, c0 := store.State(), CanRequest(job, active, CANCEL_ATTEMPTS);
    left, deeds := None, [];
    NothingSent(if active.Some? then active.value.id else 0, active.Some? && WasAskedFor(s0, active.value.id));
    ghost var more, extra;
    var asked;
    asked, steps, extra := RequestJobCancellation(store, job, active, oracle);
    if !asked.Asked? {
      return WithoutAsking(asked), steps, deeds, left;
    }
    if active.None? {
      CanActs(store.State(), CanNoRun(asked.job, asked.now), oracle, s0, c0, steps, deeds);
      steps := steps + 1;
      r := CancelWithoutRun(store, asked.job, asked.now);
      return r, steps, deeds, left;
    }
    ghost var before := store.State();
    r, more, deeds, left := CancelWithRun(store, asked.job, active.value, oracle, looks);
    SameRunIsCancelled(before, s0.(jobs := s0.jobs[job.id := asked.job]), store.runs, asked.job, active.value, oracle);
    assert asked.job == Onto(job, CancelRequested, asked.now);
    SoloJoins(s0, c0, oracle, steps, more);
    steps := steps + more;
    assert [] + deeds == deeds;
  }

  lemma SameRunIsCancelled(s: StoreState, s': StoreState, after: map<RunId, Run>, job: JobSnapshot, run: Run,
                           oracle: Oracle)
    requires s'.runs == s.runs && RunIsCancelled(s, after, job, run, oracle)
    ensures RunIsCancelled(s', after, job, run, oracle)
  {
    RunsDecideLoads(s, s', run);
    hide LoadClaimed, AskedAs;
  }

  /** Finding the job and its active run. */
  lemma ResolveAlone(s: StoreState, id: JobId, oracle: Oracle) returns (steps: nat)
    ensures var loaded := LoadJob(s, id);
      Solo(s, CanResolve(id), oracle, steps)
      == Place(s, if loaded.Err? || loaded.value.state.IsTerminal() || loaded.value.state.CancelRequested? then None
                  else Some(CanRequest(loaded.value, LatestActiveRun(s, loaded.value.id), CANCEL_ATTEMPTS)), [])
  {
    hide Solo, Act, LoadJob, LatestActiveRun;
    var c, loaded := CanResolve(id), LoadJob(s, id);
    NoStep(s, c, oracle);
    CanActs(s, c, oracle, s, c, 0, []);
    steps := 1;
    if loaded.Ok? && !loaded.value.state.IsTerminal() && !loaded.value.state.CancelRequested? {
      CanActs(s, CanActive(loaded.value), oracle, s, c, 1, []);
      steps := 2;
    }
  }

  lemma NothingSent(run: RunId, asked: bool)
    ensures SignalsComeAfter([], run, asked)
  {}

  lemma StoredIsSettled(s: StoreState, id: JobId)
    ensures id in s.jobs && (s.jobs[id].state.Cancelled? || s.jobs[id].state.CancelRequested?) ==>
      Settled(s, id, s.jobs[id])
  {}

  method CancelWithoutRun(store: JobStore, job: JobSnapshot, now: UtcTimestamp)
    returns (r: Result<JobSnapshot, ManagementError>)
    requires store.Valid()
    modifies store
    ensures store.Valid()
    ensures store.State()
      == JobTransitioned(old(store.State()), job.id, job.revision, JobState.Cancelled, false, Cli,
                         CancelledEarly.Text(), now).0
    ensures r.Ok? ==> Settled(store.State(), job.id, r.value)
    ensures r.Ok? <==> CanCommit(old(store.State()), job.id, job.revision, JobState.Cancelled, now)
    ensures store.runs == old(store.runs)
    ensures r.Ok? ==> r.value == Onto(old(store.jobs)[job.id], JobState.Cancelled, now)
                      && store.jobs == old(store.jobs)[job.id := r.value]
  {
    hide JobTransitioned, Reason.Text;
    var done := Transit(store, job, JobState.Cancelled, Cli, CancelledEarly, now);
    r := if done.Ok? then Ok(done.value) else Err(Storage(done.error));
  }

  /** From the stored request for the job to its end, for a job with an active run. */
  method CancelWithRun(store: JobStore, job: JobSnapshot, run: Run, oracle: Oracle, looks: nat)
    returns (r: Result<JobSnapshot, ManagementError>, ghost steps: nat, ghost deeds: seq<Deed>,
             ghost left: Option<Client>)
    requires store.Valid()
    modifies store
    ensures store.Valid()
    ensures Solo(old(store.State()), CanRunLoad(job, run), oracle, steps) == Place(store.State(), left, deeds)
    ensures left.None? || left.value.CanPoll? || left.value.CanGrace?
    ensures r.Ok? ==> left.None? && Settled(store.State(), job.id, r.value)
    ensures SignalsComeAfter(deeds, run.id, WasAskedFor(old(store.State()), run.id))
    ensures RunIsCancelled(old(store.State()), store.runs, job, run, oracle)
  {
    hide Solo, Act, SignalsComeAfter, Settled, AskedAs, EndsAs;
    ghost var s0, c0 := store.State(), CanRunLoad(job, run);
    var waited;
    waited, steps, deeds := CancelActiveRun(store, job, run, oracle, looks);
    left := AfterWait(waited, job);
    r := Err(StateConflict);
    if waited.SeenFinished? {
      ghost var more, extra;
      r, more, extra := FinishJobCancellation(store, job, waited.runState, oracle);
      SoloJoins(s0, c0, oracle, steps, more);
      steps, left := steps + more, None;
      assert deeds + [] == deeds;
    }
  }
}
