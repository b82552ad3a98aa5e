/** The run aggregate (`src/domain/run.rs`). Every update consumes a run and returns a new one. */
module Runs {
  import opened Wrappers
  import opened Primitives
  import opened Transitions

  type ClaimToken = nat

  datatype RunOutcome =
    | Exited(code: int)
    | Signalled(number: int)
    | Failed(message: string)
    | Interrupted(message: string)
    | Cancelled(message: string)

  datatype ProcessIdentity = ProcessIdentity(bootIdentity: string, pid: nat, startToken: nat, processGroupId: int)

  datatype RunError =
    | OutcomeAlreadyRecorded | FinishBeforeCreation | StartBeforeCreation | InvalidState
    | InvalidIdentity | InvalidLogPath | InvalidTimeline | InvalidOutcome

  datatype Run = Run(
    id: RunId, jobId: JobId, sequence: Counter, scheduledFor: UtcTimestamp, createdAt: UtcTimestamp,
    startedAt: Option<UtcTimestamp>, finishedAt: Option<UtcTimestamp>, state: RunState, claimToken: ClaimToken,
    monitorIdentity: Option<ProcessIdentity>, commandIdentity: Option<ProcessIdentity>,
    outcome: Option<RunOutcome>, stdoutPath: Option<string>, stderrPath: Option<string>)

  function NewRun(id: RunId, jobId: JobId, sequence: Counter, scheduledFor: UtcTimestamp, createdAt: UtcTimestamp,
                  token: ClaimToken)
    : (r: Run)
  {
    Run(id, jobId, sequence, scheduledFor, createdAt, None, None, RunStarting, token, None, None, None, None, None)
  }

  predicate ValidIdentity(i: ProcessIdentity) {
    && i.bootIdentity != "" && '\0' !in i.bootIdentity
    && i.pid != 0 && i.startToken != 0 && i.processGroupId > 0
  }

  function PathParts(path: string): (parts: seq<string>)
    ensures |parts| >= 1
  {
    if path == "" then [""]
    else if path[0] == '/' then [""] + PathParts(path[1..])
    else var rest := PathParts(path[1..]); [[path[0]] + rest[0]] + rest[1..]
  }

  /** Below the run directory: relative, with no parent part and no leading current-directory part.
      Empty parts and later "." parts disappear when a path is split into components. */
  predicate ValidLogPath(path: string) {
    var parts := PathParts(path);
    (path == "" || path[0] != '/') && parts[0] != "." && ".." !in parts
  }

  function RequestCancellation(run: Run): (r: Result<Run, RunError>) {
    if run.state.RunCancelRequested? then Ok(run)
    else
      match RunTransition(run.state, RunCancelRequested, Cli, "cancellation requested")
      case Err(_) => Err(InvalidState)
      case Ok(t) => Ok(run.(state := t.to))
  }

  function MarkRunning(run: Run, startedAt: UtcTimestamp, monitor: ProcessIdentity, command: ProcessIdentity,
                       stdoutPath: string, stderrPath: string): (r: Result<Run, RunError>)
  {
    if startedAt < run.createdAt then Err(StartBeforeCreation)
    else if !ValidIdentity(monitor) || !ValidIdentity(command) then Err(InvalidIdentity)
    else if !ValidLogPath(stdoutPath) || !ValidLogPath(stderrPath) then Err(InvalidLogPath)
    else
      match RunTransition(run.state, RunRunning, Monitor, "command started")
      case Err(_) => Err(InvalidState)
      case Ok(t) => Ok(run.(state := t.to, startedAt := Some(startedAt), monitorIdentity := Some(monitor),
                            commandIdentity := Some(command), stdoutPath := Some(stdoutPath),
                            stderrPath := Some(stderrPath)))
  }

  function OutcomeState(outcome: RunOutcome): (r: RunState) {
    match outcome
    case Exited(code) => if code == 0 then RunSucceeded else RunFailed
    case Signalled(_) => RunFailed
    case Failed(_) => RunFailed
    case Interrupted(_) => RunInterrupted
    case Cancelled(_) => RunCancelled
  }

  function CompletionOf(outcome: RunOutcome): (r: Completion) {
    match outcome
    case Exited(code) => Exit(code)
    case Signalled(number) => Signal(number)
    case Failed(_) => Failure
    case Interrupted(_) => InterruptedByUnknown
    case Cancelled(_) => TerminatedByCancellation
  }

  function WithOutcome(run: Run, finishedAt: UtcTimestamp, outcome: RunOutcome): (r: Result<Run, RunError>) {
    if run.outcome.Some? then Err(OutcomeAlreadyRecorded)
    else if finishedAt < run.createdAt then Err(FinishBeforeCreation)
    else
      match CompleteRun(run.state, CompletionOf(outcome))
      case Err(_) => Err(InvalidState)
      case Ok(state) => Ok(run.(state := state, finishedAt := Some(finishedAt), outcome := Some(outcome)))
  }

  /** The reading side: the same value, or the first check it fails. A snapshot has exactly the
      fields of the run, so the two share one datatype here. */
  function Rehydrate(s: Run): (r: Result<Run, RunError>) {
    if || (s.startedAt.Some? && s.startedAt.value < s.createdAt)
       || (s.finishedAt.Some? && s.finishedAt.value < s.createdAt)
       || (s.startedAt.Some? && s.finishedAt.Some? && s.finishedAt.value < s.startedAt.value)
    then Err(InvalidTimeline)
    else if || s.state.IsTerminal() != s.outcome.Some?
            || s.state.IsTerminal() != s.finishedAt.Some?
            || (s.outcome.Some? && OutcomeState(s.outcome.value) != s.state)
    then Err(InvalidOutcome)
    else if || (s.monitorIdentity.Some? && !ValidIdentity(s.monitorIdentity.value))
            || (s.commandIdentity.Some? && !ValidIdentity(s.commandIdentity.value))
    then Err(InvalidIdentity)
    else if || (s.stdoutPath.Some? && !ValidLogPath(s.stdoutPath.value))
            || (s.stderrPath.Some? && !ValidLogPath(s.stderrPath.value))
    then Err(InvalidLogPath)
    else Ok(s)
  }

  // ----- the reachable runs

  datatype RunCall =
    | CallRequest
    | CallRunning(startedAt: UtcTimestamp, monitor: ProcessIdentity, command: ProcessIdentity, stdoutPath: string,
                  stderrPath: string)
    | CallOutcome(finishedAt: UtcTimestamp, outcome: RunOutcome)

  function Called(run: Run, call: RunCall): (r: Result<Run, RunError>) {
    match call
    case CallRequest => RequestCancellation(run)
    case CallRunning(startedAt, monitor, command, out, err) => MarkRunning(run, startedAt, monitor, command, out, err)
    case CallOutcome(finishedAt, outcome) => WithOutcome(run, finishedAt, outcome)
  }

  /** `life` is every value the run has had, from its creation, each one a successful call away
      from the one before. */
  ghost predicate Life(life: seq<Run>) {
    && |life| > 0
    && life[0]
      == NewRun(life[0].id, life[0].jobId, life[0].sequence, life[0].scheduledFor, life[0].createdAt,
                life[0].claimToken)
    && forall k | 0 <= k < |life| - 1 :: OneCall(life[k], life[k + 1])
  }

  ghost predicate OneCall(before: Run, after: Run) {
    exists call :: Called(before, call) == Ok(after)
  }

  predicate Consistent(run: Run) {
    && run.state.IsTerminal() == run.outcome.Some? == run.finishedAt.Some?
    && (run.outcome.Some? ==> OutcomeState(run.outcome.value) == run.state)
    && (run.startedAt.Some? ==> run.createdAt <= run.startedAt.value)
    && (run.finishedAt.Some? ==> run.createdAt <= run.finishedAt.value)
    && run.startedAt.Some? == run.monitorIdentity.Some? == run.commandIdentity.Some?
    && run.startedAt.Some? == run.stdoutPath.Some? == run.stderrPath.Some?
    && (run.commandIdentity.Some? ==>
        ValidIdentity(run.commandIdentity.value) && ValidIdentity(run.monitorIdentity.value))
    && (run.stdoutPath.Some? ==> ValidLogPath(run.stdoutPath.value) && ValidLogPath(run.stderrPath.value))
    && (run.state.RunStarting? ==> run.startedAt.None?)
    && (run.state.RunRunning? ==> run.startedAt.Some?)
  }

  predicate SameIdentity(a: Run, b: Run) {
    && a.id == b.id && a.jobId == b.jobId && a.sequence == b.sequence && a.scheduledFor == b.scheduledFor
    && a.createdAt == b.createdAt && a.claimToken == b.claimToken
  }

  /** Exactly which outcomes are recorded, and which error meets the others first: an outcome that is
      there already, then a time before the creation, then an illegal edge. `complete_run` and
      `outcome_state` are two separate tables; a recorded outcome always agrees with the state that
      the other table chose. */
  lemma OutcomeTableAgrees(run: Run, finishedAt: UtcTimestamp, outcome: RunOutcome)
    ensures var r := WithOutcome(run, finishedAt, outcome);
      && (r.Ok? <==> run.outcome.None? && run.createdAt <= finishedAt && RunLegal(run.state, OutcomeState(outcome)))
      && (r.Ok? ==>
          r.value == run.(state := OutcomeState(outcome), finishedAt := Some(finishedAt), outcome := Some(outcome)))
      && (run.outcome.Some? <==> r == Err(OutcomeAlreadyRecorded))
      && (run.outcome.None? && finishedAt < run.createdAt <==> r == Err(FinishBeforeCreation))
  {}

  /** Which state each outcome means: only the exit with code 0 is a success. */
  lemma OutcomeMeansState(outcome: RunOutcome)
    ensures var state := OutcomeState(outcome);
      && state.IsTerminal()
      && (state.RunSucceeded? <==> outcome == Exited(0))
      && (state.RunCancelled? <==> outcome.Cancelled?)
      && (state.RunInterrupted? <==> outcome.Interrupted?)
      && (state.RunFailed? <==> outcome.Failed? || outcome.Signalled? || (outcome.Exited? && outcome.code != 0))
  {}

  /** What a stored row must satisfy to be read: its times in order, an outcome and a finish exactly
      when it is finished, the outcome's own state, and usable identities and paths. */
  predicate Readable(s: Run) {
    && (s.startedAt.Some? ==> s.createdAt <= s.startedAt.value)
    && (s.finishedAt.Some? ==> s.createdAt <= s.finishedAt.value)
    && (s.startedAt.Some? && s.finishedAt.Some? ==> s.startedAt.value <= s.finishedAt.value)
    && (if s.state.IsTerminal() then s.finishedAt.Some? && s.outcome.Some? && OutcomeState(s.outcome.value) == s.state
        else s.finishedAt.None? && s.outcome.None?)
    && (forall i | i in [s.monitorIdentity, s.commandIdentity] && i.Some? :: ValidIdentity(i.value))
    && (forall p | p in [s.stdoutPath, s.stderrPath] && p.Some? :: ValidLogPath(p.value))
  }

  /** Exactly which stored rows can be read; and none is changed by it. */
  lemma ReadingIsExact(s: Run)
    ensures var r := Rehydrate(s);
      (r.Ok? <==> Readable(s)) && (r.Ok? ==> r.value == s)
  {
    hide ValidIdentity, ValidLogPath;
    var ids, paths := [s.monitorIdentity, s.commandIdentity], [s.stdoutPath, s.stderrPath];
    assert ids[0] == s.monitorIdentity && ids[1] == s.commandIdentity;
    assert paths[0] == s.stdoutPath && paths[1] == s.stderrPath;
  }

  function Joined(parts: seq<string>): (r: string)
    requires |parts| >= 1
  {
    if |parts| == 1 then parts[0] else parts[0] + "/" + Joined(parts[1..])
  }

  /** The parts of a path are what stands between its slashes. */
  lemma {:induction false} PartsAreBetweenSlashes(path: string)
    ensures Joined(PathParts(path)) == path && forall part | part in PathParts(path) :: '/' !in part
  {
    if path != "" {
      PartsAreBetweenSlashes(path[1..]);
      var rest := PathParts(path[1..]);
      if path[0] == '/' {
        assert PathParts(path)[1..] == rest;
        assert path == [path[0]] + path[1..];
      } else {
        assert PathParts(path)[1..] == rest[1..];
        assert path == [path[0]] + Joined(rest);
      }
    }
  }

  datatype Component = RootDir | CurDir | ParentDir | Normal(name: string)

  /** The components of a path: empty parts vanish, and so does a "." that is not the first part. */
  function ComponentsOf(parts: seq<string>, atStart: bool): (r: seq<Component>) {
    if parts == [] then []
    else
      (if parts[0] == "" then []
       else if parts[0] == "." then if atStart then [CurDir] else []
       else if parts[0] == ".." then [ParentDir]
       else [Normal(parts[0])])
      + ComponentsOf(parts[1..], false)
  }

  function Components(path: string): (r: seq<Component>) {
    if path != "" && path[0] == '/' then [RootDir] + ComponentsOf(PathParts(path[1..]), false)
    else ComponentsOf(PathParts(path), true)
  }

  predicate AllNormal(components: seq<Component>) {
    forall c | c in components :: c.Normal?
  }

  lemma AllNormalSplits(a: seq<Component>, b: seq<Component>)
    ensures AllNormal(a + b) <==> AllNormal(a) && AllNormal(b)
  {
    assert forall c :: c in a + b <==> c in a || c in b;
  }

  lemma {:induction false} NormalParts(parts: seq<string>, atStart: bool)
    ensures AllNormal(ComponentsOf(parts, atStart))
       <==> ".." !in parts && (atStart && parts != [] ==> parts[0] != ".")
  {
    if parts != [] {
      NormalParts(parts[1..], false);
      var rest := ComponentsOf(parts[1..], false);
      var head := ComponentsOf(parts, atStart)[..|ComponentsOf(parts, atStart)| - |rest|];
      assert ComponentsOf(parts, atStart) == head + rest;
      AllNormalSplits(head, rest);
      assert parts == [parts[0]] + parts[1..];
      assert ".." in parts <==> parts[0] == ".." || ".." in parts[1..];
      assert head == [] || head[0] in head;
      assert parts[0] == "." ==> parts[0] != "..";
    }
  }

  /** A log path is accepted exactly if every component of it is a plain name. */
  lemma LogPathIsNormal(path: string)
    ensures ValidLogPath(path) <==> AllNormal(Components(path))
  {
    if path != "" && path[0] == '/' {
      assert Components(path)[0] in Components(path);
    } else {
      NormalParts(PathParts(path), true);
    }
    hide PathParts, ComponentsOf;
  }

  /** What makes an identity useless. */
  lemma UselessIdentities(i: ProcessIdentity)
    ensures !ValidIdentity(i)
       <==> || i.bootIdentity == "" || (exists k | 0 <= k < |i.bootIdentity| :: i.bootIdentity[k] == '\0')
            || i.pid == 0 || i.startToken == 0 || i.processGroupId <= 0
  {}

  lemma CallKeepsConsistent(run: Run, call: RunCall)
    requires Consistent(run) && Called(run, call).Ok?
    ensures var after := Called(run, call).value;
      && Consistent(after) && SameIdentity(run, after) && RunReaches(run.state, after.state)
      && (run.state.IsTerminal() ==> after == run)
      && (after.state.RunCancelled? ==> run.state.RunCancelRequested?)
  {}

  /** Whatever calls succeeded, the run is consistent and still names the same
      claim. */
  lemma {:induction false} LifeIsConsistent(life: seq<Run>, k: nat)
    requires Life(life) && k < |life|
    ensures Consistent(life[k]) && SameIdentity(life[0], life[k])
  {
    if k > 0 {
      LifeIsConsistent(life, k - 1);
      assert OneCall(life[k - 1], life[k]);
      var call :| Called(life[k - 1], call) == Ok(life[k]);
      CallKeepsConsistent(life[k - 1], call);
    }
  }

  /** A cancelled run was CancelRequested immediately before it finished. */
  lemma CancelledWasRequested(life: seq<Run>, k: nat)
    requires Life(life) && k < |life| && life[k].state.RunCancelled?
    ensures exists j | 0 <= j < k :: life[j].state.RunCancelRequested?
    decreases k
  {
    LifeIsConsistent(life, k);
    LifeIsConsistent(life, k - 1);
    assert OneCall(life[k - 1], life[k]);
    var call :| Called(life[k - 1], call) == Ok(life[k]);
    CallKeepsConsistent(life[k - 1], call);
  }

  /** Exactly when a reachable run can be read back: unless its finish precedes its start, which
      the aggregate itself does not forbid. Reading back never changes it. */
  lemma ReadsBackUnchanged(life: seq<Run>, k: nat)
    requires Life(life) && k < |life|
    ensures var run := life[k];
      && (Rehydrate(run) == Ok(run)
          <==> (run.startedAt.Some? && run.finishedAt.Some? ==> run.startedAt.value <= run.finishedAt.value))
      && (Rehydrate(run).Err? ==> Rehydrate(run).error == InvalidTimeline)
  {
    LifeIsConsistent(life, k);
  }

  /** The aggregate compares a finish only with the creation. So for every run whose command was
      started, every legal outcome and every moment between the creation and the start, the finish is
      accepted, the life goes on with it, and the result cannot be read back. */
  lemma FinishBeforeStartIsAccepted(life: seq<Run>, finishedAt: UtcTimestamp, outcome: RunOutcome)
    requires Life(life)
    requires var run := life[|life| - 1];
      run.startedAt.Some? && run.createdAt <= finishedAt < run.startedAt.value
        && RunLegal(run.state, OutcomeState(outcome))
    ensures var run := life[|life| - 1];
      var r := WithOutcome(run, finishedAt, outcome);
      r.Ok? && Life(life + [r.value]) && Rehydrate(r.value) == Err(InvalidTimeline)
  {
    var run := life[|life| - 1];
    LifeIsConsistent(life, |life| - 1);
    OutcomeTableAgrees(run, finishedAt, outcome);
    var longer := life + [WithOutcome(run, finishedAt, outcome).value];
    assert Called(run, CallOutcome(finishedAt, outcome)) == Ok(longer[|life|]);
    hide Called;
    forall k | 0 <= k < |longer| - 1 ensures OneCall(longer[k], longer[k + 1]) {
      assert longer[k] == life[k];
      if k < |life| - 1 { assert longer[k + 1] == life[k + 1]; }
    }
    assert longer[0] == life[0];
  }

  const CREATED := NewRun(1, 2, 1, 0, 0, 3)
  const MONITOR := ProcessIdentity("b", 1, 1, 1)
  const COMMAND := ProcessIdentity("b", 2, 1, 2)

  const STARTED := CREATED.(
    startedAt := Some(2), state := RunRunning, monitorIdentity := Some(MONITOR), commandIdentity := Some(COMMAND),
    stdoutPath := Some("o"), stderrPath := Some("o"))

  lemma SomeRunStarts()
    ensures Life([CREATED, STARTED])
  {
    assert PathParts("o")[0] == "o";
    assert Called(CREATED, CallRunning(2, MONITOR, COMMAND, "o", "o")) == Ok(STARTED);
    assert OneCall([CREATED, STARTED][0], [CREATED, STARTED][1]);
    hide Called;
  }

  /** Such runs exist: created at 0, started at 2, finished at 1. */
  lemma SomeRunFinishesBeforeItsStart()
    ensures exists life: seq<Run> ::
      Life(life) && life[|life| - 1].state.IsTerminal() && Rehydrate(life[|life| - 1]) == Err(InvalidTimeline)
  {
    SomeRunStarts();
    var life := [CREATED, STARTED];
    FinishBeforeStartIsAccepted(life, 1, Exited(0));
    var finished := WithOutcome(STARTED, 1, Exited(0)).value;
    assert finished.state.IsTerminal() && (life + [finished])[2] == finished;
    hide Life, WithOutcome, Rehydrate;
  }
}
