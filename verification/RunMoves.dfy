/** What one step of any program can do to the runs, although it writes from rows read earlier. */
module RunMoves {
  import opened Wrappers
  import opened Primitives
  import opened Transitions
  import opened Jobs
  import opened Runs
  import opened Store
  import opened Protocol

  /** `run` was read from the store at some earlier moment. States never repeat, so equal states mean
      an equal row; identities are set only when a run leaves its first state. */
  ghost predicate RunSeen(s: StoreState, run: Run) {
    && run.id in s.runs
    && var current := s.runs[run.id];
      && SameIdentity(run, current)
      && RunReaches(run.state, current.state)
      && (run.state == current.state ==> run == current)
      && (!run.state.RunStarting? ==>
          run.commandIdentity == current.commandIdentity && run.startedAt == current.startedAt)
  }

  ghost predicate RunsOk(s: StoreState) {
    forall r :: r in s.runs ==> s.runs[r].id == r && Consistent(s.runs[r])
  }

  predicate HoldsRun(c: Client) {
    c.DueRunning? || c.DueSpawn? || c.DueFailRead? || c.DueFailWrite?
    || c.MonCheck? || c.MonPrepare? || c.MonMarkRead? || c.MonMarkWrite? || c.MonWait? || c.MonObserve?
    || c.MonRecordRead? || c.MonRecordWrite?
    || c.CanRunLoad? || c.CanCommitRead? || c.CanCommitWrite? || IsSignalling(c) || c.CanRecordRead?
    || c.CanRecordWrite?
  }

  function OutcomeToWrite(c: Client): (r: RunOutcome)
    requires c.DueFailWrite? || c.MonRecordWrite? || c.CanRecordWrite?
  {
    if c.DueFailWrite? then SPAWN_FAILED else if c.CanRecordWrite? then CANCELLED_EARLY else c.outcome
  }

  predicate IsTerminalWrite(c: Client) {
    c.DueFailWrite? || c.MonRecordWrite? || c.CanRecordWrite?
  }

  /** What each program counter knows about the run it holds. */
  predicate RunPhase(c: Client) {
    && (c.MonMarkWrite? ==> Started(c.run, c.facts).Ok?)
    && (c.MonWait? || c.MonObserve? ==> c.run.state.RunRunning? && c.run.commandIdentity.Some?)
    && (c.MonPrepare? || c.MonMarkRead? ==> c.run.state.RunStarting? && c.run.commandIdentity.None?)
    && (IsTerminalWrite(c) ==> !c.run.state.IsTerminal() && WithOutcome(c.run, c.finishedAt, OutcomeToWrite(c)).Ok?)
    && (c.CanCommitWrite? ==> c.run.state.RunStarting? || c.run.state.RunRunning?)
    && (IsSignalling(c) || c.CanRecordRead? ==> c.run.state.RunCancelRequested? || c.run.state.IsTerminal())
    && (c.CanRecordRead? || c.CanRecordWrite? ==> c.run.commandIdentity.None?)
    && (IsSignalling(c) ==> c.run.commandIdentity.Some?)
  }

  ghost predicate RunClientOk(s: StoreState, c: Client) {
    && (HoldsRun(c) ==> RunSeen(s, c.run))
    && ((c.CanRequest? || c.CanReload?) && c.active.Some? ==> RunSeen(s, c.active.value))
    && RunPhase(c)
  }

  datatype Move = Stay | Insert(r: RunId) | Mark(r: RunId) | Request(r: RunId) | Finish(r: RunId)

  /** The five things that can happen to the run table. In every one the row moves along a legal edge
      of the run table, judged by the row as it is now and not as the writer saw it. */
  ghost predicate Moves(s: StoreState, s': StoreState, m: Move) {
    match m
    case Stay => s'.runs == s.runs
    case Insert(r) =>
      && r !in s.runs && r in s'.runs && s'.runs == s.runs[r := s'.runs[r]]
      && s'.runs[r].id == r && s'.runs[r].state.RunStarting? && Consistent(s'.runs[r])
    case Mark(r) =>
      && r in s.runs && r in s'.runs && s'.runs == s.runs[r := s'.runs[r]]
      && s.runs[r].state.RunStarting? && s'.runs[r].state.RunRunning?
      && SameIdentity(s.runs[r], s'.runs[r]) && Consistent(s'.runs[r])
    case Request(r) =>
      && r in s.runs && (s.runs[r].state.RunStarting? || s.runs[r].state.RunRunning?)
      && s'.runs == s.runs[r := s.runs[r].(state := RunCancelRequested)]
    case Finish(r) =>
      && r in s.runs && r in s'.runs && s'.runs == s.runs[r := s'.runs[r]]
      && !s.runs[r].state.IsTerminal() && s'.runs[r].state.IsTerminal()
      && RunLegal(s.runs[r].state, s'.runs[r].state)
      && s'.runs[r]
        == s.runs[r].(finishedAt := s'.runs[r].finishedAt, state := s'.runs[r].state, outcome := s'.runs[r].outcome)
      && Consistent(s'.runs[r])
  }

  /** The move a client makes when its statement takes effect. */
  function MoveOf(c: Client, ch: Choice): (r: Move) {
    if c.DueClaim? then Insert(ch.runId)
    else if c.MonMarkWrite? then Mark(c.run.id)
    else if c.CanCommitWrite? then Request(c.run.id)
    else if IsTerminalWrite(c) then Finish(c.run.id)
    else Stay
  }

  lemma ClaimInserts(s: StoreState, c: Client, ch: Choice)
    requires c.DueClaim?
    ensures var e := DueStep(s, c, ch);
      && (Moves(s, e.store, Stay) || Moves(s, e.store, Insert(ch.runId)))
      && e.requested.None?
      && (e.next.Some? ==>
          Moves(s, e.store, Insert(ch.runId)) && e.next.value.DueRunning? && e.next.value.run == e.store.runs[ch.runId]
                           && e.store.runs[ch.runId].createdAt == c.now)
  {}

  lemma MarkWrites(s: StoreState, run: Run, facts: StartFacts)
    requires RunsOk(s) && RunSeen(s, run) && Started(run, facts).Ok?
    ensures var r := WriteRunning(s, Started(run, facts).value);
      r.Some? ==> Moves(s, r.value, Mark(run.id)) && r.value.runs[run.id] == Started(run, facts).value
  {
    assert Consistent(s.runs[run.id]);
  }

  lemma OutcomeIsTerminal(seen: Run, finishedAt: UtcTimestamp, outcome: RunOutcome)
    requires WithOutcome(seen, finishedAt, outcome).Ok?
    ensures var state := OutcomeState(outcome);
      && seen.createdAt <= finishedAt && state.IsTerminal() && RunLegal(seen.state, state)
      && WithOutcome(seen, finishedAt, outcome).value
         == seen.(state := state, finishedAt := Some(finishedAt), outcome := Some(outcome))
  {}

  lemma FinishedStaysConsistent(run: Run, finishedAt: UtcTimestamp, outcome: RunOutcome)
    requires Consistent(run) && !run.state.IsTerminal() && run.createdAt <= finishedAt
    requires OutcomeState(outcome).IsTerminal()
    ensures Consistent(run.(state := OutcomeState(outcome), finishedAt := Some(finishedAt), outcome := Some(outcome)))
  {}

  /** The guard compares nothing but "not finished yet", and the new state was validated against an
      older row; the edge actually taken is still legal. */
  lemma StaleTerminalWriteIsLegal(s: StoreState, seen: Run, finishedAt: UtcTimestamp, outcome: RunOutcome)
    requires RunsOk(s) && RunSeen(s, seen) && !seen.state.IsTerminal() && WithOutcome(seen, finishedAt, outcome).Ok?
    ensures var r := TerminalWrite(s, seen, finishedAt, outcome);
      && (r.Some? <==> !s.runs[seen.id].state.IsTerminal())
      && (r.Some? ==> Moves(s, r.value, Finish(seen.id))
                      && r.value.runs[seen.id].outcome == Some(outcome)
                      && r.value.runs[seen.id].finishedAt == Some(finishedAt)
                      && r.value.runs[seen.id].state == OutcomeState(outcome))
  {
    OutcomeIsTerminal(seen, finishedAt, outcome);
    var current := s.runs[seen.id];
    assert Consistent(current);
    if !current.state.IsTerminal() {
      StaleTerminalTargetStaysLegal(seen.state, current.state, OutcomeState(outcome));
      FinishedStaysConsistent(current, finishedAt, outcome);
    }
    hide WithOutcome, Consistent, RunReaches, OutcomeState;
  }

  lemma RequestWrites(s: StoreState, seen: Run)
    requires RunsOk(s) && RunSeen(s, seen) && (seen.state.RunStarting? || seen.state.RunRunning?)
    ensures var r := WriteRequested(s, seen);
      r.Some? ==> Moves(s, r.value, Request(seen.id)) && r.value.runs[seen.id] == seen.(state := RunCancelRequested)
  {}

  lemma SupervisorKeepsRuns(s: StoreState, c: Client, ch: Choice)
    requires IsSupervisor(c) && !c.DueClaim? && !c.DueFailWrite?
    ensures DueStep(s, c, ch).store.runs == s.runs && DueStep(s, c, ch).requested.None?
  {
    hide LoadJob, Moved, PlanTerminal, Reason.Text;
  }

  lemma FinishJobKeepsRuns(s: StoreState, job: JobSnapshot, runState: RunState, now: UtcTimestamp)
    ensures FinishJob(s, job, runState, now).runs == s.runs
  {
    hide LoadJob, Moved, Advanced, Reason.Text;
  }

  lemma MonitorKeepsRuns(s: StoreState, c: Client, ch: Choice)
    requires IsMonitor(c) && !c.MonMarkWrite? && !c.MonRecordWrite?
    ensures MonStep(s, c, ch).store.runs == s.runs && MonStep(s, c, ch).requested.None?
  {
    hide FinishJob, LoadJob, LoadRun, LoadClaimed, PlanTerminal, Started, CompletionOutcome;
    if c.MonFinishWrite? { FinishJobKeepsRuns(s, c.job, c.runState, ch.now); }
  }

  lemma CancellerKeepsRuns(s: StoreState, c: Client, ch: Choice)
    requires !IsSupervisor(c) && !IsMonitor(c) && !c.CanCommitWrite? && !c.CanRecordWrite?
    ensures CanStep(s, c, ch).store.runs == s.runs && CanStep(s, c, ch).requested.None?
  {
    hide LoadJob, LoadRun, LoadClaimed, Moved, PlanTerminal, PlanRequest, LatestActiveRun, Reason.Text;
  }

  /** Job-side statements never touch the run table. */
  lemma JobWritesKeepRuns(s: StoreState, c: Client, ch: Choice)
    requires MoveOf(c, ch).Stay?
    ensures Act(s, c, ch).store.runs == s.runs && Act(s, c, ch).requested.None?
  {
    ActOf(s, c, ch);
    hide Act, DueStep, MonStep, CanStep;
    if IsSupervisor(c) {
      SupervisorKeepsRuns(s, c, ch);
    } else if IsMonitor(c) {
      MonitorKeepsRuns(s, c, ch);
    } else {
      CancellerKeepsRuns(s, c, ch);
    }
  }

  ghost predicate OwnMoveOrNone(s: StoreState, c: Client, ch: Choice) {
    var e := Act(s, c, ch);
    && (Moves(s, e.store, Stay) || Moves(s, e.store, MoveOf(c, ch)))
    && (e.requested.Some? <==> c.CanCommitWrite? && Moves(s, e.store, Request(c.run.id)))
    && (e.requested.Some? ==> e.requested.value == c.run.id)
  }

  lemma StartMakesMove(s: StoreState, c: Client, ch: Choice)
    requires RunsOk(s) && RunClientOk(s, c) && (c.DueClaim? || c.MonMarkWrite?)
    ensures OwnMoveOrNone(s, c, ch)
  {
    hide RunsOk, RunSeen, Started, WriteRunning, RunClaimed;
    ActOf(s, c, ch);
    if c.DueClaim? { ClaimInserts(s, c, ch); } else { MarkWrites(s, c.run, c.facts); }
  }

  lemma RequestMakesMove(s: StoreState, c: Client, ch: Choice)
    requires RunsOk(s) && RunClientOk(s, c) && c.CanCommitWrite?
    ensures OwnMoveOrNone(s, c, ch)
  {
    hide RunsOk, RunSeen, WriteRequested;
    RequestWrites(s, c.run);
    RequestIsNotStay(s, Act(s, c, ch).store, c.run.id);
  }

  lemma FinishMakesMove(s: StoreState, c: Client, ch: Choice)
    requires RunsOk(s) && RunClientOk(s, c) && IsTerminalWrite(c)
    ensures OwnMoveOrNone(s, c, ch)
  {
    hide RunsOk, RunSeen, WithOutcome, TerminalWrite;
    StaleTerminalWriteIsLegal(s, c.run, c.finishedAt, OutcomeToWrite(c));
  }

  /** One step makes its own move or none. */
  lemma StepMakesMove(s: StoreState, c: Client, ch: Choice)
    requires RunsOk(s) && RunClientOk(s, c)
    ensures OwnMoveOrNone(s, c, ch)
  {
    if c.DueClaim? || c.MonMarkWrite? {
      hide *;
      StartMakesMove(s, c, ch);
    } else if c.CanCommitWrite? {
      hide *;
      RequestMakesMove(s, c, ch);
    } else if IsTerminalWrite(c) {
      hide *;
      FinishMakesMove(s, c, ch);
    } else {
      hide Act, RunsOk, RunClientOk;
      JobWritesKeepRuns(s, c, ch);
    }
  }

  lemma RequestIsNotStay(s: StoreState, s': StoreState, r: RunId)
    ensures Moves(s, s', Request(r)) ==> r in s.runs && s'.runs != s.runs
  {
    if Moves(s, s', Request(r)) { assert s'.runs[r].state != s.runs[r].state; }
  }

  // ----- what every move keeps

  lemma MoveKeepsRunsOk(s: StoreState, s': StoreState, m: Move)
    requires RunsOk(s) && Moves(s, s', m)
    ensures RunsOk(s')
  {}

  /** A row read earlier is still a fair reading after anybody's move. */
  lemma MoveKeepsSeen(s: StoreState, s': StoreState, m: Move, run: Run)
    requires RunsOk(s) && Moves(s, s', m) && RunSeen(s, run)
    ensures RunSeen(s', run)
  {}

  lemma MoveKeepsClient(s: StoreState, s': StoreState, m: Move, c: Client)
    requires RunsOk(s) && Moves(s, s', m) && RunClientOk(s, c)
    ensures RunClientOk(s', c)
  {
    hide RunsOk, RunSeen, Moves, RunPhase;
    if HoldsRun(c) { MoveKeepsSeen(s, s', m, c.run); }
    if (c.CanRequest? || c.CanReload?) && c.active.Some? { MoveKeepsSeen(s, s', m, c.active.value); }
  }
}
