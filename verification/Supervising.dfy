/** The supervisor's program for one due job (`src/supervisor/daemon.rs`). */
module Supervising {
  import opened Wrappers
  import opened Primitives
  import opened Transitions
  import opened Jobs
  import opened Runs
  import opened Store
  import opened Protocol
  import opened Programs

  lemma DueActs(s: StoreState, c: Client, oracle: Oracle, s0: StoreState, c0: Client, n: nat, deeds: seq<Deed>)
    requires Solo(s0, c0, oracle, n) == Place(s, Some(c), deeds) && IsSupervisor(c)
    ensures var e := DueStep(s, c, oracle(c));
      && Solo(s0, c0, oracle, n + 1) == Place(e.store, e.next, deeds + Deeds(e))
      && (Deeds(e) == [] ==> Solo(s0, c0, oracle, n + 1) == Place(e.store, e.next, deeds))
  {
    ActOf(s, c, oracle(c));
    hide Act, DueStep, Solo, Deeds;
    Onward(s0, c0, oracle, n, s, c, deeds);
  }

  /** The revisions from a due job to its start. */
  function Hops(state: JobState): (r: nat) {
    if state.Scheduled? then 2 else 1
  }

  /** A job that the supervisor can take to its start: readable, Scheduled or Waiting, last changed
      before now, and with revisions left. */
  predicate CanStart(s: StoreState, id: JobId, now: UtcTimestamp) {
    && id in s.jobs
    && var job := s.jobs[id];
      && job.createdAt <= job.updatedAt <= now && job.state in {Scheduled, Waiting}
      && job.revision + Hops(job.state) <= I64_MAX
  }

  function StartingRow(job: JobSnapshot, now: UtcTimestamp): (r: JobSnapshot)
    requires job.revision + Hops(job.state) <= I64_MAX
  {
    job.(revision := job.revision + Hops(job.state), state := Starting, updatedAt := now)
  }

  /** The run that a claim for the job's next due time stores. */
  ghost function ClaimedRun(s: StoreState, job: JobSnapshot, now: UtcTimestamp, ch: Choice): (r: Run)
    requires 0 <= HighestSequence(s.runs, job.id) < I64_MAX
  {
    Run(ch.runId, job.id, HighestSequence(s.runs, job.id) + 1, job.nextDue, now, None, None, RunStarting, ch.token,
        None, None, None, None, None)
  }

  /** The last revision of a Scheduled job takes it to Waiting and no further. */
  predicate OnlyToWaiting(s: StoreState, id: JobId, now: UtcTimestamp) {
    && id in s.jobs && s.jobs[id].state.Scheduled? && s.jobs[id].revision == I64_MAX - 1
    && s.jobs[id].createdAt <= s.jobs[id].updatedAt <= now
  }

  /** What the supervisor does for a due job that alone decides what happens: it claims a run for
      exactly the stored next due time when, and only when, the job can start, the occurrence is not
      claimed yet, and the id and the token are free; then the job goes on to Running and the monitor of
      that run is started, or, when it cannot be, run and job are marked as failed. */
  ghost predicate DueRound(s: StoreState, after: StoreState, id: JobId, oracle: Oracle, deeds: seq<Deed>) {
    var now := oracle(DueLoad(id)).now;
    if !CanStart(s, id, now) then
      && after.runs == s.runs && deeds == []
      && after.jobs == if OnlyToWaiting(s, id, now) then s.jobs[id := Onto(s.jobs[id], Waiting, now)] else s.jobs
    else ClaimRound(s, after, StartingRow(s.jobs[id], now), now, oracle, deeds)
  }

  ghost predicate ClaimRound(s: StoreState, after: StoreState, starting: JobSnapshot, now: UtcTimestamp,
                             oracle: Oracle, deeds: seq<Deed>)
  {
    var ch := oracle(DueClaim(starting, now));
    if !CanClaim(s, starting.id, starting.nextDue, ch.runId, ch.token) then
      after.runs == s.runs && after.jobs == s.jobs[starting.id := starting] && deeds == []
    else
      var run := ClaimedRun(s, starting, now, ch);
      && deeds != [] && deeds[0] == DidClaim(Claim(run.id, starting.id, starting.revision))
      && StartedAs(s.(jobs := s.jobs[starting.id := starting], runs := s.runs[run.id := run]), after, starting, run,
                   now, oracle, deeds[1..])
  }

  /** The due job as it is once it waits. */
  predicate WaitsFrom(s: StoreState, waited: StoreState, id: JobId, now: UtcTimestamp) {
    && id in s.jobs && id in waited.jobs && s.jobs[id].createdAt <= s.jobs[id].updatedAt && waited.runs == s.runs
    && if s.jobs[id].state.Scheduled? then
         && s.jobs[id].revision < I64_MAX && s.jobs[id].updatedAt <= now
         && waited.jobs == s.jobs[id := Onto(s.jobs[id], Waiting, now)]
       else s.jobs[id].state.Waiting? && waited.jobs == s.jobs
  }

  lemma RoundFromWaiting(s: StoreState, waited: StoreState, after: StoreState, id: JobId, oracle: Oracle,
                         deeds: seq<Deed>)
    requires var now := oracle(DueLoad(id)).now;
      && WaitsFrom(s, waited, id, now) && s.jobs[id].id == id
      && var job := waited.jobs[id];
        if job.updatedAt <= now && job.revision < I64_MAX
        then ClaimRound(waited, after, Onto(job, Starting, now), now, oracle, deeds)
        else after == waited && deeds == []
    ensures DueRound(s, after, id, oracle, deeds)
  {
    var now := oracle(DueLoad(id)).now;
    if CanStart(s, id, now) {
      assert Onto(waited.jobs[id], Starting, now) == StartingRow(s.jobs[id], now);
      SameRound(s, waited, after, StartingRow(s.jobs[id], now), now, oracle, deeds);
    }
    hide ClaimRound;
  }

  /** Takes a due job to its claimed run and starts the monitor, or gives up at the first refusal. */
  method ExecuteSingleDueJob(store: JobStore, id: JobId, oracle: Oracle)
    returns (ghost steps: nat, ghost deeds: seq<Deed>)
    requires store.Valid()
    modifies store
    ensures store.Valid()
    ensures Solo(old(store.State()), DueLoad(id), oracle, steps) == Place(store.State(), None, deeds)
    ensures DueRound(old(store.State()), store.State(), id, oracle, deeds)
    ensures OneClaim(id, deeds)
  {
    hide Solo, Act, JobTransitioned, Reason.Text, ClaimRound, OneClaim;
    ghost var s0, now := store.State(), oracle(DueLoad(id)).now;
    steps, deeds := 0, [];
    NoStep(s0, DueLoad(id), oracle);
    NoClaim(id);
    DueActs(s0, DueLoad(id), oracle, s0, DueLoad(id), 0, deeds);
    steps := 1;
    var loaded := store.Load(id);
    if loaded.Err? {
      return;
    }
    var job := loaded.value.Snapshot();
    if job.state.Scheduled? {
      DueActs(store.State(), DueWaiting(job, now), oracle, s0, DueLoad(id), steps, deeds);
      steps := steps + 1;
      var waiting := Transit(store, job, Waiting, Supervisor, LoadedDeadline, oracle(DueLoad(id)).now);
      if waiting.Err? {
        return;
      }
      job := waiting.value;
    }
    if !job.state.Waiting? {
      return;
    }
    ghost var waited := store.State();
    hide DueRound, DueStep;
    assert WaitsFrom(s0, waited, id, now);
    ghost var more, extra := StartDueJob(store, job, oracle(DueLoad(id)).now, oracle);
    SoloJoins(s0, DueLoad(id), oracle, steps, more);
    RoundFromWaiting(s0, waited, store.State(), id, oracle, extra);
    steps, deeds := steps + more, deeds + extra;
    assert [] + extra == extra;
  }

  /** From Waiting to a claimed run and a started monitor; whether it starts is decided outside. */
  method StartDueJob(store: JobStore, due: JobSnapshot, now: UtcTimestamp, oracle: Oracle)
    returns (ghost steps: nat, ghost deeds: seq<Deed>)
    requires store.Valid() && due.id in store.jobs && store.jobs[due.id] == due
    requires due.state.Waiting? && due.createdAt <= due.updatedAt
    modifies store
    ensures store.Valid()
    ensures Solo(old(store.State()), DueStarting(due, now), oracle, steps) == Place(store.State(), None, deeds)
    ensures if due.updatedAt <= now && due.revision < I64_MAX
            then ClaimRound(old(store.State()), store.State(), Onto(due, Starting, now), now, oracle, deeds)
            else store.State() == old(store.State()) && deeds == []
    ensures OneClaim(due.id, deeds)
  {
    hide Solo, Act, JobTransitioned, Reason.Text, RunClaimed, ClaimRound, OneClaim;
    NoClaim(due.id);
    ghost var s0, c0 := store.State(), DueStarting(due, now);
    steps := 0;
    deeds := [];
    NoStep(s0, c0, oracle);
    DueActs(s0, c0, oracle, s0, c0, steps, deeds);
    steps := steps + 1;
    var starting := Transit(store, due, Starting, Supervisor, DeadlineDue, now);
    if starting.Err? {
      return;
    }
    ghost var started := store.State();
    ghost var more, extra := ClaimAndStart(store, starting.value, now, oracle);
    SoloJoins(s0, c0, oracle, steps, more);
    SameRound(s0, started, store.State(), starting.value, now, oracle, extra);
    steps, deeds := steps + more, deeds + extra;
    assert [] + extra == extra;
  }

  /** From Starting to a claimed run and a started monitor. */
  method ClaimAndStart(store: JobStore, starting: JobSnapshot, now: UtcTimestamp, oracle: Oracle)
    returns (ghost steps: nat, ghost deeds: seq<Deed>)
    requires store.Valid() && starting.id in store.jobs && store.jobs[starting.id] == starting
    requires starting.state.Starting? && starting.createdAt <= starting.updatedAt == now
    modifies store
    ensures store.Valid()
    ensures Solo(old(store.State()), DueClaim(starting, now), oracle, steps) == Place(store.State(), None, deeds)
    ensures ClaimRound(old(store.State()), store.State(), starting, now, oracle, deeds)
    ensures OneClaim(starting.id, deeds)
  {
    hide Solo, Act, JobTransitioned, Reason.Text, RunClaimed, LoadClaimed, CanClaim, SpawnFailedAs;
    ghost var s0, c0 := store.State(), DueClaim(starting, now);
    steps := 0;
    deeds := [];
    NoStep(s0, c0, oracle);
    DueActs(s0, c0, oracle, s0, c0, steps, deeds);
    steps := steps + 1;
    var ch := oracle(DueClaim(starting, now));
    assert store.jobs == store.jobs[starting.id := starting];
    var claimed := store.ClaimRun(starting.id, starting.nextDue, now, ch.runId, ch.token);
    if claimed.Err? {
      return;
    }
    var run := claimed.value;
    FreshIsReadable(store.State(), run);
    deeds := [DidClaim(Claim(ch.runId, starting.id, starting.revision))];
    ghost var more, extra := StartClaimedRun(store, starting, run, now, oracle);
    SoloJoins(s0, c0, oracle, steps, more);
    assert |extra| <= 1;
    steps, deeds := steps + more, deeds + extra;
    assert deeds[1..] == extra;
  }

  /** Nothing, or the claim of one run of the job and then at most the start of that run's monitor. */
  predicate OneClaim(id: JobId, deeds: seq<Deed>) {
    deeds != [] ==>
      && deeds[0].DidClaim? && deeds[0].claim.job == id
      && (|deeds| > 1 ==> deeds == [deeds[0], DidStart(MonLoadJob(id, deeds[0].claim.run))])
  }

  lemma NoClaim(id: JobId)
    ensures OneClaim(id, [])
  {}

  lemma FreshIsReadable(s: StoreState, run: Run)
    requires run.id in s.runs && s.runs[run.id] == run
    requires run == NewRun(run.id, run.jobId, run.sequence, run.scheduledFor, run.createdAt, run.claimToken)
    ensures LoadClaimed(s, run.id, run.claimToken) == Ok(run)
  {}

  /** A claim looks at the runs only, and at whether the job is there. */
  lemma SameRound(s: StoreState, before: StoreState, after: StoreState, starting: JobSnapshot, now: UtcTimestamp,
                  oracle: Oracle, deeds: seq<Deed>)
    requires starting.id in s.jobs && starting.id in before.jobs && before.runs == s.runs
    requires before.jobs[starting.id := starting] == s.jobs[starting.id := starting]
    requires ClaimRound(before, after, starting, now, oracle, deeds)
    ensures ClaimRound(s, after, starting, now, oracle, deeds)
  {
    hide HighestSequence;
  }

  /** Running and a started monitor, or everything marked as failed; a job without a revision left stays
      as it was claimed. */
  predicate StartedAs(s: StoreState, after: StoreState, claimed: JobSnapshot, run: Run, now: UtcTimestamp,
                      oracle: Oracle, deeds: seq<Deed>)
  {
    if claimed.revision >= I64_MAX then after.jobs == s.jobs && after.runs == s.runs && deeds == []
    else
      var running := Onto(claimed, Running, now);
      var spawn := oracle(DueSpawn(running, run));
      if spawn.ok then
        && after.jobs == s.jobs[claimed.id := running] && after.runs == s.runs
        && deeds == [DidStart(MonLoadJob(claimed.id, run.id))]
      else
        SpawnFailedAs(s.(jobs := s.jobs[claimed.id := running]), after, running, run, spawn.now) && deeds == []
  }

  /** From a claimed run to a started monitor. */
  method StartClaimedRun(store: JobStore, claimed: JobSnapshot, run: Run, now: UtcTimestamp, oracle: Oracle)
    returns (ghost steps: nat, ghost deeds: seq<Deed>)
    requires store.Valid() && Holds(store.State(), claimed, run)
    requires claimed.state.Starting? && run.state.RunStarting? && claimed.updatedAt == run.createdAt == now
    modifies store
    ensures store.Valid()
    ensures Solo(old(store.State()), DueRunning(claimed, run, now), oracle, steps) == Place(store.State(), None, deeds)
    ensures StartedAs(old(store.State()), store.State(), claimed, run, now, oracle, deeds)
  {
    hide Solo, Act, JobTransitioned, Reason.Text, LoadClaimed;
    ghost var s0, c0 := store.State(), DueRunning(claimed, run, now);
    steps, deeds := 0, [];
    NoStep(s0, c0, oracle);
    DueActs(s0, c0, oracle, s0, c0, 0, deeds);
    steps := 1;
    var running := Transit(store, claimed, Running, Supervisor, MonitorClaimed, now);
    if running.Err? {
      return;
    }
    var job := running.value;
    RunsDecideLoads(s0, store.State(), run);
    DueActs(store.State(), DueSpawn(job, run), oracle, s0, c0, steps, deeds);
    steps := steps + 1;
    if oracle(DueSpawn(job, run)).ok {
      deeds := deeds + [DidStart(MonLoadJob(job.id, run.id))];
      return;
    }
    ghost var more, extra := FailSpawn(store, job, run, oracle(DueSpawn(job, run)).now, oracle);
    SoloJoins(s0, c0, oracle, steps, more);
    steps, deeds := steps + more, deeds + extra;
  }

  /** The stored rows are those the program holds, and they can be read. */
  predicate Holds(s: StoreState, job: JobSnapshot, run: Run) {
    && job.id in s.jobs && s.jobs[job.id] == job && job.createdAt <= job.updatedAt
    && LoadClaimed(s, run.id, run.claimToken) == Ok(run)
  }

  /** Run and job end as failed, the run first; each only if the clock has not gone back. */
  predicate SpawnFailedAs(s: StoreState, after: StoreState, job: JobSnapshot, run: Run, finishedAt: UtcTimestamp) {
    if finishedAt < run.createdAt then after.runs == s.runs && after.jobs == s.jobs
    else
      && after.runs == s.runs[run.id := Concluded(run, finishedAt, SPAWN_FAILED)]
      && after.jobs == if job.updatedAt <= finishedAt && job.revision < I64_MAX
                       then s.jobs[job.id := Onto(job, JobState.Failed, finishedAt)] else s.jobs
  }

  /** The supervisor's own clean-up when the monitor could not be started. */
  method FailSpawn(store: JobStore, job: JobSnapshot, run: Run, finishedAt: UtcTimestamp, oracle: Oracle)
    returns (ghost steps: nat, ghost deeds: seq<Deed>)
    requires store.Valid()
    modifies store
    ensures store.Valid()
    ensures Solo(old(store.State()), DueFailRead(job, run, finishedAt), oracle, steps)
      == Place(store.State(), None, deeds)
    ensures deeds == []
    ensures Holds(old(store.State()), job, run) && job.state.Running? && run.state.RunStarting? ==>
      SpawnFailedAs(old(store.State()), store.State(), job, run, finishedAt)
  {
    hide Solo, Act, JobTransitioned, Reason.Text, RunRecorded, LoadClaimed, WithOutcome, Onto;
    ghost var s0, c0 := store.State(), DueFailRead(job, run, finishedAt);
    deeds := [];
    steps := FailReadAlone(s0, job, run, finishedAt, oracle);
    if Holds(s0, job, run) && run.state.RunStarting? { RecordingIsExact(s0, run, finishedAt, SPAWN_FAILED); }
    var recorded := store.RecordRunTerminal(run.id, run.claimToken, finishedAt, SPAWN_FAILED);
    if recorded.Err? {
      return;
    }
    DueActs(store.State(), DueFailJob(job, finishedAt), oracle, s0, c0, steps, deeds);
    steps := steps + 1;
    var _ := Transit(store, job, JobState.Failed, Supervisor, MonitorLost, finishedAt);
  }

  lemma FailReadAlone(s: StoreState, job: JobSnapshot, run: Run, finishedAt: UtcTimestamp, oracle: Oracle)
    returns (steps: nat)
    ensures var c := DueFailRead(job, run, finishedAt);
      var (after, r) := RunRecorded(s, run.id, run.claimToken, finishedAt, SPAWN_FAILED);
      Solo(s, c, oracle, steps) == Place(after, if r.Ok? then Some(DueFailJob(job, finishedAt)) else None, [])
  {
    hide Solo, Act, PlanTerminal, TerminalWrite, WriteTerminal;
    var c := DueFailRead(job, run, finishedAt);
    NoStep(s, c, oracle);
    DueActs(s, c, oracle, s, c, 0, []);
    steps := 1;
    PlanThenWrite(s, run.id, run.claimToken, finishedAt, SPAWN_FAILED);
    if PlanTerminal(s, run.id, run.claimToken, finishedAt, SPAWN_FAILED).WriteOutcome? {
      DueActs(s, DueFailWrite(job, s.runs[run.id], finishedAt), oracle, s, c, 1, []);
      steps := 2;
    }
  }
}
